/** Scheduled sends end to end: the schedule-time gate, the store it delivers into,
the runner, and the live gate the runner fires through. */
module SendRun {
  import opened TokenBucket
  import opened Gate
  import opened GateRun
  import opened Schedule
  import RateBound

  // One entry that reached the bridge: the clock reading that found it due, and its claim on the live gate.
  datatype Firing = Firing(entry: Entry, at: Time, claim: nat)

  // Where the runner's loop stands.
  datatype Stage =
    | Idle
    | Holding(entry: Entry, at: Time)
    | Sending(firing: Firing)
    | Finished(entry: Entry)

  datatype World = World(
    live: Sys,
    liveLog: seq<Event>,
    sched: Sys,
    schedLog: seq<Event>,
    store: seq<Entry>,
    landed: seq<string>,  // the ids of the entries landed, in the order the claims were wired
    stage: Stage,
    fired: seq<Firing>)

  datatype Move =
    | Live(event: Event)                                // any other goroutine on the live gate
    | Book(event: Event, checkedAt: Time)               // schedule_send and the draft list on the schedule-time gate
    | Land(claim: nat, id: string, preview: string, created: int)  // a booked claim is added to the store
    | Cancel(id: string)
    | Pick(index: nat, at: Time)                        // the soonest entry, found due
    | Attempt(valid: bool, now: Time)                   // DeliverScheduled up to the limiter
    | Send                                              // the deliverer is called
    | Finish                                            // the entry is removed, whatever the send returned

  function StartWorld(saved: seq<Entry>, now: Time, burst: int, perSeconds: int): World {
    World(Start(burst, perSeconds), [], Start(burst, perSeconds), [], Survivors(saved, now), [], Idle, [])
  }

  // The schedule-time gate validates the fire time as well as the content.
  function Checked(e: Event, at: Time): Event {
    if e.SubmitEvent?
    then SubmitEvent(e.call.(valid := Acceptable(e.call.delivery, at, e.call.valid)))
    else e
  }

  function OnLive(w: World, e: Event): World {
    w.(live := Next(w.live, e), liveLog := w.liveLog + [e])
  }

  function OnSched(w: World, e: Event): World {
    w.(sched := Next(w.sched, e), schedLog := w.schedLog + [e])
  }

  // All that schedule_send ever builds.
  predicate SchedulableKind(kind: string) {
    kind == "text" || kind == "media"
  }

  // Only the runner fires schedules or wires their claims; only landing wires a booked claim.
  predicate Enabled(w: World, m: Move) {
    match m
    case Live(e) => !e.ScheduledEvent? &&
                    (e.Wire? && e.index < |w.live.claims| ==> !w.live.claims[e.index].via.BySchedule?)
    case Book(e, _) => !e.ScheduledEvent? && !e.Wire? && (e.SubmitEvent? ==> SchedulableKind(e.call.delivery.kind))
    case Land(c, _, _, _) => c < |w.sched.claims| && c !in w.sched.wire
    case Cancel(_) => true
    case Pick(i, at) => w.stage.Idle? && i < |w.store| && Due(w.store[i], at) &&
                        forall j :: 0 <= j < |w.store| ==> w.store[i].delivery.fireAt <= w.store[j].delivery.fireAt
    case Attempt(_, _) => w.stage.Holding?
    case Send => w.stage.Sending?
    case Finish => w.stage.Finished?
  }

  function Go(w: World, m: Move): World {
    if !Enabled(w, m) then w
    else match m
      case Live(e) => OnLive(w, e)
      case Book(e, at) => OnSched(w, Checked(e, at))
      case Land(c, id, preview, created) =>
        OnSched(w, Wire(c)).(
          store := w.store + [Entry(id, w.sched.claims[c].delivery, preview, created)],
          landed := w.landed + [id])
      case Cancel(id) => w.(store := Without(w.store, id))
      case Pick(i, at) => w.(stage := Holding(w.store[i], at))
      case Attempt(valid, now) =>
        var e := ScheduledEvent(w.stage.entry.delivery, valid, "", now);
        var (_, out) := Section(w.live.gate, e);
        var next := if out.RateLimited? then Idle
                    else if out.Claimed? then Sending(Firing(w.stage.entry, w.stage.at, |w.live.claims|))
                    else Finished(w.stage.entry);
        OnLive(w, e).(stage := next)
      case Send =>
        OnLive(w, Wire(w.stage.firing.claim)).(
          stage := Finished(w.stage.firing.entry),
          fired := w.fired + [w.stage.firing])
      case Finish => w.(store := Without(w.store, w.stage.entry.id), stage := Idle)
  }

  function Play(w: World, ms: seq<Move>): World {
    if ms == [] then w else Go(Play(w, ms[..|ms| - 1]), ms[|ms| - 1])
  }

  // Landed ids are random: none repeats, none was in the file.
  ghost predicate FreshIds(saved: seq<Entry>, ms: seq<Move>) {
    && (forall k :: 0 <= k < |ms| && ms[k].Land? ==> forall e :: e in saved ==> e.id != ms[k].id)
    && (forall i, k :: 0 <= i < k < |ms| && ms[i].Land? && ms[k].Land? ==> ms[i].id != ms[k].id)
  }

  ghost predicate Seen(saved: seq<Entry>, ms: seq<Move>, id: string) {
    (exists e :: e in saved && e.id == id) || (exists k :: 0 <= k < |ms| && ms[k].Land? && ms[k].id == id)
  }

  lemma FreshIdsPrefix(saved: seq<Entry>, ms: seq<Move>, m: Move)
    requires FreshIds(saved, ms + [m])
    ensures FreshIds(saved, ms)
    ensures m.Land? ==> !Seen(saved, ms, m.id)
    ensures forall id :: Seen(saved, ms, id) ==> Seen(saved, ms + [m], id)
    ensures m.Land? ==> Seen(saved, ms + [m], m.id)
  {
    var ms' := ms + [m];
    assert ms'[|ms|] == m;
    assert forall k :: 0 <= k < |ms| ==> ms'[k] == ms[k];
  }

  // schedule_send books only what lies ahead, within thirty days, and only text and media.
  lemma BookedIsAhead(w: World, e: Event, at: Time)
    requires e.SubmitEvent? && Enabled(w, Book(e, at)) && !Submit(w.sched.gate, Checked(e, at).call).1.Refused?
    ensures at < e.call.delivery.fireAt * 1_000_000_000 <= at + 30 * 86_400 * 1_000_000_000 && e.call.valid
    ensures e.call.delivery.kind == "text" || e.call.delivery.kind == "media"
  {
    AcceptedIff(e.call.delivery, at, e.call.valid);
  }

  // The runner lets go of a rate-limited entry, which stays stored; a refused one is to be removed, a claimed one sent.
  lemma AttemptDecides(w: World, valid: bool, now: Time)
    requires w.stage.Holding?
    ensures var w', e := Go(w, Attempt(valid, now)), w.stage.entry;
      && w'.store == w.store && w'.fired == w.fired && w'.live.wire == w.live.wire
      && (w'.stage == Idle <==> valid && !w.live.gate.bucket.Allows(now))
      && (w'.stage == Finished(e) <==> !valid)
      && (valid && w.live.gate.bucket.Allows(now) ==>
            w'.stage == Sending(Firing(e, w.stage.at, |w.live.claims|)) &&
            w'.live.claims == w.live.claims + [Claim(e.delivery, BySchedule, now)])
  {
  }

  // Only the entry just sent or refused is removed, and a send is followed by its removal.
  lemma FinishRemovesIt(w: World)
    ensures w.stage.Sending? ==>
              Go(w, Send) == w.(live := Go(w, Send).live, liveLog := Go(w, Send).liveLog,
                                stage := Finished(w.stage.firing.entry), fired := w.fired + [w.stage.firing])
    ensures w.stage.Finished? ==> Go(w, Finish).stage == Idle
    ensures w.stage.Finished? ==>
              forall e :: e in Go(w, Finish).store <==> e in w.store && e.id != w.stage.entry.id
  {
    if w.stage.Finished? {
      WithoutHolds(w.store, w.stage.entry.id);
    }
  }

  /* ----- each gate of the world is a gate run ----- */

  lemma {:induction false} WorldProjects(saved: seq<Entry>, now: Time, burst: int, perSeconds: int, ms: seq<Move>)
    ensures var w := Play(StartWorld(saved, now, burst, perSeconds), ms);
            w.live == Run(Start(burst, perSeconds), w.liveLog) && w.sched == Run(Start(burst, perSeconds), w.schedLog)
  {
    if ms != [] {
      var w := Play(StartWorld(saved, now, burst, perSeconds), ms[..|ms| - 1]);
      var m := ms[|ms| - 1];
      WorldProjects(saved, now, burst, perSeconds, ms[..|ms| - 1]);
      GoProjects(w, Start(burst, perSeconds), m);
    }
  }

  lemma GoProjects(w: World, s: Sys, m: Move)
    requires w.live == Run(s, w.liveLog) && w.sched == Run(s, w.schedLog)
    ensures Go(w, m).live == Run(s, Go(w, m).liveLog) && Go(w, m).sched == Run(s, Go(w, m).schedLog)
  {
  }

  /* ----- each entry at most once ----- */

  ghost predicate Spent(w: World, id: string) {
    exists k :: 0 <= k < |w.fired| && w.fired[k].entry.id == id
  }

  function HeldID(s: Stage): string
    requires !s.Idle?
  {
    if s.Sending? then s.firing.entry.id else s.entry.id
  }

  // A fired id is out of the store, or about to be taken out; the runner never holds one it has fired.
  ghost predicate FiredOnce(saved: seq<Entry>, ms: seq<Move>, w: World) {
    && (forall i, j :: 0 <= i < j < |w.fired| ==> w.fired[i].entry.id != w.fired[j].entry.id)
    && (forall k :: 0 <= k < |w.fired| ==> Seen(saved, ms, w.fired[k].entry.id))
    && (forall e :: e in w.store ==> Seen(saved, ms, e.id))
    && (forall e :: e in w.store && Spent(w, e.id) ==> w.stage.Finished? && w.stage.entry.id == e.id)
    && (!w.stage.Idle? ==> Seen(saved, ms, HeldID(w.stage)))
    && (w.stage.Holding? || w.stage.Sending? ==> !Spent(w, HeldID(w.stage)))
  }

  lemma GoKeepsFiredOnce(saved: seq<Entry>, ms: seq<Move>, w: World, m: Move)
    requires FiredOnce(saved, ms, w) && FreshIds(saved, ms + [m])
    ensures FiredOnce(saved, ms + [m], Go(w, m))
  {
    FreshIdsPrefix(saved, ms, m);
    if Enabled(w, m) {
      match m
      case Land(_, _, _, _) => LandKeepsFiredOnce(saved, ms, w, m);
      case Send => SendKeepsFiredOnce(saved, ms, w);
      case Pick(_, _) => PickKeepsFiredOnce(saved, ms, w, m);
      case Cancel(_) => RemovalKeepsFiredOnce(saved, ms, w, m);
      case Finish => RemovalKeepsFiredOnce(saved, ms, w, m);
      case _ => OtherKeepsFiredOnce(saved, ms, w, m);
    }
  }

  lemma PickKeepsFiredOnce(saved: seq<Entry>, ms: seq<Move>, w: World, m: Move)
    requires FiredOnce(saved, ms, w) && m.Pick? && Enabled(w, m)
    ensures FiredOnce(saved, ms, Go(w, m))
  {
    assert w.store[m.index] in w.store;
  }

  lemma RemovalKeepsFiredOnce(saved: seq<Entry>, ms: seq<Move>, w: World, m: Move)
    requires FiredOnce(saved, ms, w) && (m.Cancel? || m.Finish?) && Enabled(w, m)
    ensures FiredOnce(saved, ms, Go(w, m))
  {
    WithoutHolds(w.store, if m.Cancel? then m.id else w.stage.entry.id);
    assert forall id :: Spent(Go(w, m), id) <==> Spent(w, id);
  }

  lemma OtherKeepsFiredOnce(saved: seq<Entry>, ms: seq<Move>, w: World, m: Move)
    requires FiredOnce(saved, ms, w) && (m.Live? || m.Book? || m.Attempt?) && Enabled(w, m)
    ensures FiredOnce(saved, ms, Go(w, m))
  {
    assert forall id :: Spent(Go(w, m), id) <==> Spent(w, id);
  }

  lemma LandKeepsFiredOnce(saved: seq<Entry>, ms: seq<Move>, w: World, m: Move)
    requires FiredOnce(saved, ms, w) && m.Land? && Enabled(w, m) && FreshIds(saved, ms + [m])
    ensures FiredOnce(saved, ms + [m], Go(w, m))
  {
    FreshIdsPrefix(saved, ms, m);
    assert !Spent(w, m.id);
  }

  lemma SendKeepsFiredOnce(saved: seq<Entry>, ms: seq<Move>, w: World)
    requires FiredOnce(saved, ms, w) && w.stage.Sending?
    ensures FiredOnce(saved, ms, Go(w, Send))
  {
    var w' := Go(w, Send);
    assert w'.fired[|w.fired|] == w.stage.firing;
    assert forall k :: 0 <= k < |w.fired| ==> w'.fired[k] == w.fired[k];
    forall e | e in w.store && Spent(w', e.id)
      ensures e.id == w.stage.firing.entry.id
    {
      var k :| 0 <= k < |w'.fired| && w'.fired[k].entry.id == e.id;
      assert k < |w.fired| ==> Spent(w, e.id);
    }
  }

  lemma {:induction false} PlayFiresOnce(saved: seq<Entry>, now: Time, burst: int, perSeconds: int, ms: seq<Move>)
    requires FreshIds(saved, ms)
    ensures FiredOnce(saved, ms, Play(StartWorld(saved, now, burst, perSeconds), ms))
  {
    if ms == [] {
      LoadSplitsTheFile(saved, now);
    } else {
      var before := ms[..|ms| - 1];
      assert ms == before + [ms[|ms| - 1]];
      FreshIdsPrefix(saved, before, ms[|ms| - 1]);
      PlayFiresOnce(saved, now, burst, perSeconds, before);
      GoKeepsFiredOnce(saved, before, Play(StartWorld(saved, now, burst, perSeconds), before), ms[|ms| - 1]);
    }
  }

  /* ----- what reaches the bridge, and why ----- */

  // The i-th landing stored e, for the claim it wired.
  predicate LandedAs(w: World, e: Entry, i: nat) {
    i < |w.landed| && w.landed[i] == e.id && i < |w.sched.wire| &&
    w.sched.wire[i] < |w.sched.claims| && w.sched.claims[w.sched.wire[i]].delivery == e.delivery
  }

  // e was in the file, or the schedule-time gate delivered it.
  ghost predicate Sourced(saved: seq<Entry>, now: Time, w: World, e: Entry) {
    (e in saved && !Missed(e, now)) || exists i: nat :: LandedAs(w, e, i)
  }

  ghost predicate FiringOf(w: World, claim: nat) {
    exists k :: 0 <= k < |w.fired| && w.fired[k].claim == claim
  }

  predicate RunnerClaim(s: Sys, claim: nat, d: Delivery) {
    claim < |s.claims| && s.claims[claim].via == BySchedule && s.claims[claim].delivery == d
  }

  // The firing's claim reached the bridge with the entry's exact content, no earlier than its fire time.
  ghost predicate Recorded(w: World, f: Firing) {
    RunnerClaim(w.live, f.claim, f.entry.delivery) && f.claim in w.live.wire && Due(f.entry, f.at)
  }

  ghost predicate Provenance(saved: seq<Entry>, now: Time, w: World) {
    && |w.landed| == |w.sched.wire|
    && (forall i :: 0 <= i < |w.sched.wire| ==> w.sched.wire[i] < |w.sched.claims|)
    && (forall i :: 0 <= i < |w.live.wire| ==> w.live.wire[i] < |w.live.claims|)
    && (forall e :: e in w.store ==> Sourced(saved, now, w, e))
    && (w.stage.Holding? ==> Sourced(saved, now, w, w.stage.entry) && Due(w.stage.entry, w.stage.at))
    && (w.stage.Sending? ==> SendingInFlight(saved, now, w, w.stage.firing))
    && (forall k :: 0 <= k < |w.fired| ==> Recorded(w, w.fired[k]) && Sourced(saved, now, w, w.fired[k].entry))
  }

  ghost predicate SendingInFlight(saved: seq<Entry>, now: Time, w: World, f: Firing) {
    Sourced(saved, now, w, f.entry) && Due(f.entry, f.at) &&
    RunnerClaim(w.live, f.claim, f.entry.delivery) && f.claim !in w.live.wire
  }

  predicate ByRunner(s: Sys, claim: nat) {
    claim < |s.claims| && s.claims[claim].via.BySchedule?
  }

  // Every runner claim that reached the bridge is one of the firings.
  ghost predicate OnlyFirings(w: World) {
    forall i :: 0 <= i < |w.live.wire| && ByRunner(w.live, w.live.wire[i]) ==> FiringOf(w, w.live.wire[i])
  }

  lemma SourcedGrows(saved: seq<Entry>, now: Time, w: World, w': World)
    requires w.landed <= w'.landed && w.sched.wire <= w'.sched.wire && w.sched.claims <= w'.sched.claims
    ensures forall e :: Sourced(saved, now, w, e) ==> Sourced(saved, now, w', e)
  {
    forall e, i: nat | LandedAs(w, e, i)
      ensures LandedAs(w', e, i)
    {
    }
  }

  lemma NextExtends(s: Sys, e: Event)
    requires forall i :: 0 <= i < |s.wire| ==> s.wire[i] < |s.claims|
    ensures var s' := Next(s, e);
            s.wire <= s'.wire && s.claims <= s'.claims &&
            (forall i :: 0 <= i < |s'.wire| ==> s'.wire[i] < |s'.claims|)
    ensures forall x :: x in s.wire ==> x in Next(s, e).wire
    ensures forall c, d :: RunnerClaim(s, c, d) ==> RunnerClaim(Next(s, e), c, d)
  {
  }

  lemma GoKeepsProvenance(saved: seq<Entry>, now: Time, w: World, m: Move)
    requires Provenance(saved, now, w)
    ensures Provenance(saved, now, Go(w, m))
  {
    var w' := Go(w, m);
    if Enabled(w, m) {
      match m
      case Live(e) =>
        NextExtends(w.live, e);
        SourcedGrows(saved, now, w, w');
      case Book(e, at) =>
        NextExtends(w.sched, Checked(e, at));
        SourcedGrows(saved, now, w, w');
      case Land(c, _, _, _) =>
        NextExtends(w.sched, Wire(c));
        SourcedGrows(saved, now, w, w');
        assert LandedAs(w', w'.store[|w.store|], |w.landed|);
      case Cancel(id) =>
        WithoutHolds(w.store, id);
        SourcedGrows(saved, now, w, w');
      case _ =>
        RunnerKeepsProvenance(saved, now, w, m);
    }
  }

  lemma RunnerKeepsProvenance(saved: seq<Entry>, now: Time, w: World, m: Move)
    requires Provenance(saved, now, w) && Enabled(w, m) && (m.Pick? || m.Attempt? || m.Send? || m.Finish?)
    ensures Provenance(saved, now, Go(w, m))
  {
    var w' := Go(w, m);
    SourcedGrows(saved, now, w, w');
    match m
    case Pick(i, _) =>
      assert w.store[i] in w.store;
    case Attempt(valid, at) =>
      NextExtends(w.live, ScheduledEvent(w.stage.entry.delivery, valid, "", at));
    case Send =>
      NextExtends(w.live, Wire(w.stage.firing.claim));
      assert w'.live.wire[|w.live.wire|] == w.stage.firing.claim;
    case Finish =>
      WithoutHolds(w.store, w.stage.entry.id);
  }

  lemma GoKeepsOnlyFirings(saved: seq<Entry>, now: Time, w: World, m: Move)
    requires Provenance(saved, now, w) && OnlyFirings(w)
    ensures OnlyFirings(Go(w, m))
  {
    var w' := Go(w, m);
    assert forall c :: FiringOf(w, c) ==> FiringOf(w', c) by {
      assert |w.fired| <= |w'.fired| && w.fired == w'.fired[..|w.fired|];
    }
    if Enabled(w, m) && m.Send? {
      assert w'.fired[|w.fired|] == w.stage.firing;
    }
  }

  lemma {:induction false} PlayKeepsProvenance(saved: seq<Entry>, now: Time, burst: int, perSeconds: int, ms: seq<Move>)
    ensures var w := Play(StartWorld(saved, now, burst, perSeconds), ms); Provenance(saved, now, w) && OnlyFirings(w)
  {
    if ms == [] {
      LoadSplitsTheFile(saved, now);
    } else {
      PlayKeepsProvenance(saved, now, burst, perSeconds, ms[..|ms| - 1]);
      var w := Play(StartWorld(saved, now, burst, perSeconds), ms[..|ms| - 1]);
      GoKeepsProvenance(saved, now, w, ms[|ms| - 1]);
      GoKeepsOnlyFirings(saved, now, w, ms[|ms| - 1]);
    }
  }

  // The schedule-time gate only ever sees its own tool's calls.
  ghost predicate ToolCalls(es: seq<Event>) {
    forall e :: e in es ==> !e.ScheduledEvent? && (e.SubmitEvent? ==> SchedulableKind(e.call.delivery.kind))
  }

  lemma {:induction false} SchedLogIsToolCalls(saved: seq<Entry>, now: Time, burst: int, perSeconds: int, ms: seq<Move>)
    ensures ToolCalls(Play(StartWorld(saved, now, burst, perSeconds), ms).schedLog)
  {
    if ms != [] {
      SchedLogIsToolCalls(saved, now, burst, perSeconds, ms[..|ms| - 1]);
    }
  }

  // The human saw this content, fire time included, or trusts its recipient, or the file already held it.
  ghost predicate Confirmed(saved: seq<Entry>, now: Time, w: World, d: Delivery) {
    || (exists e :: e in saved && !Missed(e, now) && e.delivery == d)
    || (exists t :: DraftedAs(w.schedLog, t, d))
    || TrustedSubmit(w.schedLog, d)
  }

  // The runner delivers only what was confirmed, unchanged, never before its time, and no entry twice;
  // nothing else reaches the bridge in a schedule's name.
  lemma ScheduledSendsAreConfirmed(saved: seq<Entry>, now: Time, burst: int, perSeconds: int, ms: seq<Move>)
    requires FreshIds(saved, ms)
    requires FreshTokens(Play(StartWorld(saved, now, burst, perSeconds), ms).schedLog)
    ensures var w := Play(StartWorld(saved, now, burst, perSeconds), ms);
      && (forall k :: 0 <= k < |w.fired| ==>
            Recorded(w, w.fired[k]) && Confirmed(saved, now, w, w.fired[k].entry.delivery))
      && (forall k :: 0 <= k < |w.fired| ==> w.fired[k].entry.delivery.fireAt * 1_000_000_000 <= w.fired[k].at)
      && (forall i, j :: 0 <= i < j < |w.fired| ==> w.fired[i].entry.id != w.fired[j].entry.id)
      && OnlyFirings(w)
  {
    var w := Play(StartWorld(saved, now, burst, perSeconds), ms);
    WorldProjects(saved, now, burst, perSeconds, ms);
    PlayFiresOnce(saved, now, burst, perSeconds, ms);
    PlayKeepsProvenance(saved, now, burst, perSeconds, ms);
    SchedLogIsToolCalls(saved, now, burst, perSeconds, ms);
    RunKeepsTraced(burst, perSeconds, w.schedLog);
    forall k | 0 <= k < |w.fired|
      ensures Confirmed(saved, now, w, w.fired[k].entry.delivery)
    {
      var d := w.fired[k].entry.delivery;
      if i: nat :| LandedAs(w, w.fired[k].entry, i) {
        assert Entitled(w.schedLog, w.sched.claims[w.sched.wire[i]]);
      }
    }
  }

  // One confirmation, one send: firings that were not in the file go back to different claims of the schedule-time
  // gate, and so, when those were confirmed drafts, to different tokens.
  lemma EachConfirmationSendsOnce(saved: seq<Entry>, now: Time, burst: int, perSeconds: int, ms: seq<Move>)
    requires FreshIds(saved, ms)
    requires FreshTokens(Play(StartWorld(saved, now, burst, perSeconds), ms).schedLog)
    ensures var w := Play(StartWorld(saved, now, burst, perSeconds), ms);
      && (forall k :: 0 <= k < |w.fired| && w.fired[k].entry !in saved ==>
            exists i: nat :: LandedAs(w, w.fired[k].entry, i))
      && (forall k, l, i: nat, j: nat ::
            (0 <= k < l < |w.fired| && LandedAs(w, w.fired[k].entry, i) && LandedAs(w, w.fired[l].entry, j)) ==>
            DifferentConfirmations(w.sched.claims, w.sched.wire[i], w.sched.wire[j]))
  {
    var w := Play(StartWorld(saved, now, burst, perSeconds), ms);
    WorldProjects(saved, now, burst, perSeconds, ms);
    PlayFiresOnce(saved, now, burst, perSeconds, ms);
    PlayKeepsProvenance(saved, now, burst, perSeconds, ms);
    RunKeepsTraced(burst, perSeconds, w.schedLog);
    forall k, l, i: nat, j: nat | 0 <= k < l < |w.fired| &&
        LandedAs(w, w.fired[k].entry, i) && LandedAs(w, w.fired[l].entry, j)
      ensures DifferentConfirmations(w.sched.claims, w.sched.wire[i], w.sched.wire[j])
    {
      LandingsDiffer(w, w.schedLog, w.fired[k].entry, i, w.fired[l].entry, j);
    }
  }

  lemma LandingsDiffer(w: World, log: seq<Event>, e: Entry, i: nat, e': Entry, j: nat)
    requires LandedAs(w, e, i) && LandedAs(w, e', j) && e.id != e'.id
    requires Distinct(w.sched.wire) && ClaimsTraced(log, w.sched)
    ensures DifferentConfirmations(w.sched.claims, w.sched.wire[i], w.sched.wire[j])
  {
    assert i != j;
  }

  predicate DifferentConfirmations(claims: seq<Claim>, a: nat, b: nat) {
    a != b && a < |claims| && b < |claims| &&
    (claims[a].via.ByToken? && claims[b].via.ByToken? ==> claims[a].via.token != claims[b].via.token)
  }

  /* ----- not early on the limiter's clock either ----- */

  // The runner reads the clock for the limiter after the reading that found the entry it holds due.
  ghost predicate AttemptsFollowPicks(w: World, ms: seq<Move>) {
    forall j :: 0 <= j < |ms| ==> FollowsPick(Play(w, ms[..j]), ms[j])
  }

  predicate FollowsPick(w: World, m: Move) {
    w.stage.Holding? && m.Attempt? ==> w.stage.at <= m.now
  }

  predicate ClaimedInTime(w: World, f: Firing) {
    f.claim < |w.live.claims| && Due(f.entry, w.live.claims[f.claim].stamp)
  }

  ghost predicate Timely(w: World) {
    && (w.stage.Holding? ==> Due(w.stage.entry, w.stage.at))
    && (w.stage.Sending? ==> ClaimedInTime(w, w.stage.firing))
    && (forall k :: 0 <= k < |w.fired| ==> ClaimedInTime(w, w.fired[k]))
  }

  lemma GoKeepsTimely(w: World, m: Move)
    requires Timely(w) && FollowsPick(w, m)
    ensures Timely(Go(w, m))
  {
    var w' := Go(w, m);
    assert w.live.claims <= w'.live.claims;
    assert forall f :: ClaimedInTime(w, f) ==> ClaimedInTime(w', f);
  }

  lemma {:induction false} PlayKeepsTimely(w: World, ms: seq<Move>)
    requires AttemptsFollowPicks(w, ms) && Timely(w)
    ensures Timely(Play(w, ms))
  {
    if ms != [] {
      var before := ms[..|ms| - 1];
      forall j | 0 <= j < |before|
        ensures FollowsPick(Play(w, before[..j]), before[j])
      {
        assert before[..j] == ms[..j] && before[j] == ms[j];
      }
      PlayKeepsTimely(w, before);
      GoKeepsTimely(Play(w, before), ms[|ms| - 1]);
    }
  }

  // So every firing's claim is stamped at or past the entry's fire time.
  lemma ScheduledSendsAreNeverEarly(saved: seq<Entry>, now: Time, burst: int, perSeconds: int, ms: seq<Move>)
    requires AttemptsFollowPicks(StartWorld(saved, now, burst, perSeconds), ms)
    ensures var w := Play(StartWorld(saved, now, burst, perSeconds), ms);
            forall k :: 0 <= k < |w.fired| ==>
              w.fired[k].claim < |w.live.claims| &&
              w.fired[k].entry.delivery.fireAt * 1_000_000_000 <= w.live.claims[w.fired[k].claim].stamp
  {
    PlayKeepsTimely(StartWorld(saved, now, burst, perSeconds), ms);
  }

  // One limiter for everything: schedules, drafts, trusted sends and read receipts together keep the rate bound.
  lemma ScheduledSendsShareTheRate(saved: seq<Entry>, now: Time, burst: int, perSeconds: int, ms: seq<Move>,
                                   lo: Time, hi: Time)
    requires lo <= hi && RateBound.NonDecreasingClock(Play(StartWorld(saved, now, burst, perSeconds), ms).liveLog)
    ensures var b := NewBucket(burst, perSeconds);
            RateBound.InWindow(Play(StartWorld(saved, now, burst, perSeconds), ms).live.claims, lo, hi)
            <= b.burst + (hi - lo) / b.period
  {
    WorldProjects(saved, now, burst, perSeconds, ms);
    RateBound.RateBound(burst, perSeconds, Play(StartWorld(saved, now, burst, perSeconds), ms).liveLog, lo, hi);
  }
}
