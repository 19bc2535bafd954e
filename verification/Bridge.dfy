/** The bridge: what it learns about who is behind a privacy address, and what
it writes to the store as events arrive. */
module Bridge {
  import opened Tables
  import opened Fold
  import FoldTheorems
  import Store

  const LID_SERVER := "lid"
  const PHONE_SERVER := "s.whatsapp.net"

  /* ----- pairings ----- */

  // Who is behind each privacy user, as a bare phone address.
  type Pairings = map<string, string>

  ghost predicate PhoneValued(p: Pairings) {
    forall user :: user in p ==> ServerOf(p[user]) == PHONE_SERVER
  }

  function UserOnly(jid: string): string {
    WithoutDevice(UserOf(jid))
  }

  // The address a row is written under: the phone one when the pairing is known.
  function PhoneOf(known: Pairings, jid: string): string {
    if ServerOf(jid) == LID_SERVER && UserOnly(jid) in known then known[UserOnly(jid)] else jid
  }

  function Remember(known: Pairings, lid: string, pn: string): Pairings {
    if ServerOf(lid) == LID_SERVER && ServerOf(pn) == PHONE_SERVER then known[UserOnly(lid) := BareLID(pn)] else known
  }

  // All there is to know about the resolver the fold is given.
  ghost predicate Means(r: Resolver, known: Pairings) {
    Sound(r) && Answers(r, known)
  }

  ghost predicate Answers(r: Resolver, known: Pairings) {
    forall j :: r(j) == if ServerOf(j) == LID_SERVER && UserOnly(j) in known then known[UserOnly(j)] else ""
  }

  lemma BridgeResolverMeans(known: Pairings)
    requires PhoneValued(known)
    ensures Means(BridgeResolver(known), known)
  {
    BridgeResolverIsSound(known);
    BridgeResolverAnswers(known);
  }

  lemma BridgeResolverAnswers(known: Pairings)
    requires PhoneValued(known)
    ensures Answers(BridgeResolver(known), known)
  {
  }

  // Writing under PhoneOf is writing under the canonical address of what is known so far.
  lemma PhoneOfIsCanon(r: Resolver, known: Pairings, jid: string)
    requires PhoneValued(known) && Means(r, known)
    ensures PhoneOf(known, jid) == Canon(r, jid)
  {
  }

  /* ----- what one message says about its addresses ----- */

  datatype Source = Source(chat: string, sender: string, senderAlt: string, recipientAlt: string, isGroup: bool)

  // The privacy address as stored, its bare form, and the bare phone address it belongs to.
  datatype Pairing = NoPairing | Pairing(exact: string, canon: string, pn: string)

  // The sender under both addresses, in either order.
  function LidPairing(src: Source): Pairing {
    if ServerOf(src.sender) == LID_SERVER && ServerOf(src.senderAlt) == PHONE_SERVER then
      Pairing(src.sender, BareLID(src.sender), BareLID(src.senderAlt))
    else if ServerOf(src.senderAlt) == LID_SERVER && ServerOf(src.sender) == PHONE_SERVER then
      Pairing(BareLID(src.senderAlt), BareLID(src.senderAlt), BareLID(src.sender))
    else NoPairing
  }

  // The peer of a direct chat under both addresses, in either order.
  function ChatPairing(src: Source): Pairing {
    if src.isGroup || ServerOf(src.recipientAlt) == "" then NoPairing
    else if ServerOf(src.chat) == LID_SERVER && ServerOf(src.recipientAlt) == PHONE_SERVER then
      Pairing(BareLID(src.chat), BareLID(src.chat), BareLID(src.recipientAlt))
    else if ServerOf(src.recipientAlt) == LID_SERVER && ServerOf(src.chat) == PHONE_SERVER then
      Pairing(BareLID(src.recipientAlt), BareLID(src.recipientAlt), BareLID(src.chat))
    else NoPairing
  }

  function LearnedBySender(known: Pairings, src: Source): Pairings {
    if LidPairing(src).Pairing? then Remember(Remember(known, src.sender, src.senderAlt), src.senderAlt, src.sender)
    else known
  }

  function Learned(known: Pairings, src: Source): Pairings {
    var c := ChatPairing(src);
    if c.Pairing? then Remember(LearnedBySender(known, src), c.canon, c.pn) else LearnedBySender(known, src)
  }

  // The same pairings, recorded for the read side: the sender's under both its forms.
  function TaughtBySender(db: Db, src: Source): Db {
    var p := LidPairing(src);
    if p.Pairing? then UpsertLIDMapping(UpsertLIDMapping(db, p.exact, p.pn), p.canon, p.pn) else db
  }

  function Taught(db: Db, src: Source): Db {
    var c := ChatPairing(src);
    if c.Pairing? then UpsertLIDMapping(TaughtBySender(db, src), c.canon, c.pn) else TaughtBySender(db, src)
  }

  /* ----- one message ----- */

  datatype Arrival = Arrival(src: Source, id: string, content: Content, pushName: string)

  // Only a direct chat takes the sender's push name, and never our own.
  function ChatNameOf(a: Arrival): string {
    if !a.src.isGroup && !a.content.fromMe then a.pushName else ""
  }

  function PushNamed(jid: string, pushName: string): Contact {
    Contact(PhoneDigits(BareLID(jid)), pushName, "", "")
  }

  function WithNames(db: Db, sender: string, a: Arrival): Db {
    if a.content.fromMe || a.pushName == "" then db
    else
      var p, own := LidPairing(a.src), UpsertContact(db, sender, PushNamed(sender, a.pushName));
      if p.Pairing? && p.pn != sender then UpsertContact(own, p.pn, PushNamed(p.pn, a.pushName)) else own
  }

  datatype State = State(db: Db, known: Pairings)

  // Learn first, then write the chat row, the message and the names under what is now known.
  function Arrive(s: State, a: Arrival, rowid: int): State {
    var known := Learned(s.known, a.src);
    var chat, sender := PhoneOf(known, a.src.chat), PhoneOf(known, a.src.sender);
    var db := Receive(Taught(s.db, a.src), Key(chat, a.id), sender, ChatNameOf(a), a.src.isGroup, a.content, rowid);
    State(WithNames(db, sender, a), known)
  }

  /* ----- whole runs ----- */

  // A pairing turning up in the session store, a conversation of a history sync, a message, or a fold.
  datatype Event =
    | Paired(user: string, pn: string)
    | Conversation(jid: string, name: string, isGroup: bool, at: int)
    | Arrived(arrival: Arrival, rowid: int)
    | FoldAll(scan: Scan)

  function FoldAt(s: State, scan: Scan): Db {
    FoldLIDs(s.db, BridgeResolver(s.known), scan).db
  }

  function Step(s: State, e: Event): State {
    match e
    case Paired(user, pn) => s.(known := s.known[user := pn])
    case Conversation(jid, name, isGroup, at) => s.(db := UpsertChat(s.db, PhoneOf(s.known, jid), name, isGroup, at))
    case Arrived(a, rowid) => Arrive(s, a, rowid)
    case FoldAll(scan) => s.(db := FoldAt(s, scan))
  }

  function Run(es: seq<Event>): State {
    if es == [] then State(EMPTY, map[]) else Step(Run(es[..|es| - 1]), es[|es| - 1])
  }

  // The same message with both addresses resolved by r.
  function Resolved(r: Resolver, db: Db, a: Arrival, rowid: int): Db {
    Receive(db, CanonKey(r, Key(a.src.chat, a.id)), Canon(r, a.src.sender),
            ChatNameOf(a), a.src.isGroup, a.content, rowid)
  }

  function EarlyStep(r: Resolver, db: Db, e: Event): Db {
    match e
    case Conversation(jid, name, isGroup, at) => UpsertChat(db, Canon(r, jid), name, isGroup, at)
    case Arrived(a, rowid) => Resolved(r, db, a, rowid)
    case _ => db
  }

  // The same events with every address resolved by r from the start, and no fold at all.
  function EarlyRun(r: Resolver, es: seq<Event>): Db {
    if es == [] then EMPTY else EarlyStep(r, EarlyRun(r, es[..|es| - 1]), es[|es| - 1])
  }

  /* ----- what the outside world is assumed to keep to ----- */

  ghost predicate Holds(all: Pairings, lid: string, pn: string) {
    UserOnly(lid) in all && all[UserOnly(lid)] == pn
  }

  // No pairing an event carries contradicts who is really behind the address.
  ghost predicate TellsTruth(all: Pairings, e: Event) {
    match e
    case Paired(user, pn) => user in all && all[user] == pn
    case Arrived(a, _) =>
      (LidPairing(a.src).Pairing? ==> Holds(all, LidPairing(a.src).canon, LidPairing(a.src).pn)) &&
      (ChatPairing(a.src).Pairing? ==> Holds(all, ChatPairing(a.src).canon, ChatPairing(a.src).pn))
    case _ => true
  }

  // A fold reads the rows that are there.
  ghost predicate FoldScans(s: State, e: Event) {
    e.FoldAll? ==> Scans(s.db, BridgeResolver(s.known), e.scan)
  }

  ghost predicate ScansAt(es: seq<Event>, i: nat)
    requires i < |es|
  {
    FoldScans(Run(es[..i]), es[i])
  }

  ghost predicate Truthful(all: Pairings, es: seq<Event>) {
    && PhoneValued(all)
    && (forall i :: 0 <= i < |es| ==> TellsTruth(all, es[i]))
    && (forall i :: 0 <= i < |es| ==> ScansAt(es, i))
  }

  ghost predicate SaidOf(r: Resolver, a: Arrival, said: map<Key, Payload>) {
    var k := CanonKey(r, Key(a.src.chat, a.id));
    k in said && said[k] == Payload(Canon(r, a.src.sender), a.content)
  }

  // Repeat deliveries of one message carry one payload.
  ghost predicate Repeats(r: Resolver, es: seq<Event>, said: map<Key, Payload>) {
    forall i :: 0 <= i < |es| && es[i].Arrived? ==> SaidOf(r, es[i].arrival, said)
  }

  /* ----- what a message teaches, from its raw addresses ----- */

  // The sender under its privacy address, with the phone address beside it.
  lemma LidSenderTeaches(known: Pairings, db: Db, src: Source)
    requires ServerOf(src.sender) == "lid" && ServerOf(src.senderAlt) == "s.whatsapp.net"
    requires src.isGroup || ServerOf(src.recipientAlt) == ""
    ensures PhoneOf(Learned(known, src), src.sender) == BareLID(src.senderAlt)
    ensures Taught(db, src).lidMap == db.lidMap[src.sender := BareLID(src.senderAlt)]
                                               [BareLID(src.sender) := BareLID(src.senderAlt)]
    ensures Learned(known, src) == known[UserOnly(src.sender) := BareLID(src.senderAlt)]
  {
    BareHasAt(src.sender);
    BareHasAt(src.senderAlt);
  }

  // The reverse order: the sender under its phone address, with the privacy address beside it.
  lemma PhoneSenderTeaches(known: Pairings, db: Db, src: Source)
    requires ServerOf(src.sender) == "s.whatsapp.net" && ServerOf(src.senderAlt) == "lid"
    requires src.isGroup || ServerOf(src.recipientAlt) == ""
    ensures PhoneOf(Learned(known, src), src.senderAlt) == BareLID(src.sender)
    ensures Taught(db, src).lidMap == db.lidMap[BareLID(src.senderAlt) := BareLID(src.sender)]
    ensures Learned(known, src) == known[UserOnly(src.senderAlt) := BareLID(src.sender)]
  {
    BareHasAt(src.sender);
    BareHasAt(src.senderAlt);
  }

  // A direct chat under its privacy address, with the peer's phone address beside it; it has the last word.
  lemma LidChatTeaches(known: Pairings, db: Db, src: Source)
    requires !src.isGroup && ServerOf(src.chat) == "lid" && ServerOf(src.recipientAlt) == "s.whatsapp.net"
    ensures PhoneOf(Learned(known, src), src.chat) == BareLID(src.recipientAlt)
    ensures BareLID(src.chat) in Taught(db, src).lidMap
    ensures Taught(db, src).lidMap[BareLID(src.chat)] == BareLID(src.recipientAlt)
  {
    BareHasAt(src.chat);
    BareHasAt(src.recipientAlt);
    BareKeepsServerAndUser(src.chat);
    BareKeepsServerAndUser(src.recipientAlt);
    BareIsBare(src.recipientAlt);
  }

  lemma PhoneChatTeaches(known: Pairings, db: Db, src: Source)
    requires !src.isGroup && ServerOf(src.chat) == "s.whatsapp.net" && ServerOf(src.recipientAlt) == "lid"
    ensures PhoneOf(Learned(known, src), src.recipientAlt) == BareLID(src.chat)
    ensures BareLID(src.recipientAlt) in Taught(db, src).lidMap
    ensures Taught(db, src).lidMap[BareLID(src.recipientAlt)] == BareLID(src.chat)
  {
    BareHasAt(src.chat);
    BareHasAt(src.recipientAlt);
    BareKeepsServerAndUser(src.chat);
    BareKeepsServerAndUser(src.recipientAlt);
    BareIsBare(src.chat);
  }

  predicate OneOfEach(a: string, b: string) {
    (ServerOf(a) == "lid" && ServerOf(b) == "s.whatsapp.net") ||
    (ServerOf(a) == "s.whatsapp.net" && ServerOf(b) == "lid")
  }

  // Only a privacy address of a known user is replaced.
  lemma OnlyKnownLidsAreReplaced(known: Pairings, jid: string)
    ensures ServerOf(jid) != "lid" || UserOnly(jid) !in known ==> PhoneOf(known, jid) == jid
    ensures ServerOf(jid) == "lid" && UserOnly(jid) in known ==> PhoneOf(known, jid) == known[UserOnly(jid)]
  {
  }

  // Nothing else teaches anything.
  lemma NothingElseTeaches(known: Pairings, db: Db, src: Source)
    requires !OneOfEach(src.sender, src.senderAlt) && (src.isGroup || !OneOfEach(src.chat, src.recipientAlt))
    ensures Learned(known, src) == known && Taught(db, src) == db
  {
  }

  // What is known of a user can only be changed by a pairing of that user.
  ghost predicate SameUnless(known: Pairings, now: Pairings, user: string, user': string) {
    forall u :: u != user && u != user' ==> (u in now <==> u in known) && (u in known ==> now[u] == known[u])
  }

  lemma SenderTeachesItself(known: Pairings, src: Source)
    ensures SameUnless(known, LearnedBySender(known, src), UserOnly(src.sender), UserOnly(src.senderAlt))
    ensures !OneOfEach(src.sender, src.senderAlt) ==> LearnedBySender(known, src) == known
  {
  }

  lemma ChatTeachesItself(known: Pairings, src: Source)
    ensures SameUnless(LearnedBySender(known, src), Learned(known, src), UserOnly(src.chat), UserOnly(src.recipientAlt))
    ensures src.isGroup || !OneOfEach(src.chat, src.recipientAlt) ==>
              Learned(known, src) == LearnedBySender(known, src)
  {
    BareKeepsServerAndUser(src.chat);
    BareKeepsServerAndUser(src.recipientAlt);
  }

  // Nobody else's pairing is touched by a message.
  lemma OthersStayAsKnown(known: Pairings, src: Source, user: string)
    requires user != UserOnly(src.sender) && user != UserOnly(src.senderAlt)
    requires user != UserOnly(src.chat) && user != UserOnly(src.recipientAlt)
    ensures user in Learned(known, src) <==> user in known
    ensures user in known ==> Learned(known, src)[user] == known[user]
  {
    SenderTeachesItself(known, src);
    ChatTeachesItself(known, src);
  }

  // So a pairing of the sender stands unless the chat's own, of the same user, replaces it.
  lemma SendersPairingStands(known: Pairings, src: Source)
    requires OneOfEach(src.sender, src.senderAlt)
    ensures var first := ServerOf(src.sender) == "lid";
            var lid, pn := if first then src.sender else src.senderAlt, if first then src.senderAlt else src.sender;
            UserOnly(lid) != UserOnly(src.chat) && UserOnly(lid) != UserOnly(src.recipientAlt) ==>
              PhoneOf(Learned(known, src), lid) == BareLID(pn)
  {
    ChatTeachesItself(known, src);
  }

  lemma BareHasAt(jid: string)
    ensures ServerOf(jid) != "" ==> BareLID(jid) != "" && jid != ""
  {
  }

  // So a direct message that carries both addresses of its sender is stored under the phone one, from the first on.
  lemma FirstMessageIsStoredUnderPhone(s: State, a: Arrival, rowid: int)
    requires !a.src.isGroup && a.src.chat == a.src.sender && ServerOf(a.src.recipientAlt) == ""
    requires ServerOf(a.src.sender) == "lid" && ServerOf(a.src.senderAlt) == "s.whatsapp.net"
    ensures var db, pn := Arrive(s, a, rowid).db, BareLID(a.src.senderAlt);
            Key(pn, a.id) in db.messages && db.messages[Key(pn, a.id)].senderJID == pn &&
            db.messages[Key(pn, a.id)].content == a.content && pn in db.chats
  {
    LidSenderTeaches(s.known, s.db, a.src);
    var known := Learned(s.known, a.src);
    var key, sender := Key(PhoneOf(known, a.src.chat), a.id), PhoneOf(known, a.src.sender);
    WithNamesKeepsTables(
      Receive(Taught(s.db, a.src), key, sender, ChatNameOf(a), a.src.isGroup, a.content, rowid), sender, a);
  }

  // Whatever arrives: the message is there under the addresses known after it, its chat is there and as late, and the
  // chat takes the push name only where it is someone else's in a direct chat.
  lemma ArrivalIsStored(s: State, a: Arrival, rowid: int)
    ensures var known := Learned(s.known, a.src);
            var chat, db := PhoneOf(known, a.src.chat), Arrive(s, a, rowid).db;
      && Key(chat, a.id) in db.messages && db.messages[Key(chat, a.id)].content == a.content
      && db.messages[Key(chat, a.id)].senderJID == PhoneOf(known, a.src.sender)
      && db.messages.Keys == s.db.messages.Keys + {Key(chat, a.id)}
      && (forall k :: k in s.db.messages && k != Key(chat, a.id) ==> db.messages[k] == s.db.messages[k])
      && chat in db.chats && a.content.ts <= db.chats[chat].lastMessageAt && db.chats[chat].isGroup == a.src.isGroup
      && db.chats.Keys == s.db.chats.Keys + {chat}
      && (!a.src.isGroup && !a.content.fromMe && a.pushName != "" ==> db.chats[chat].name == a.pushName)
      && (a.src.isGroup || a.content.fromMe || a.pushName == "" ==>
            db.chats[chat].name == if chat in s.db.chats then s.db.chats[chat].name else "")
  {
    var known := Learned(s.known, a.src);
    var key, sender := Key(PhoneOf(known, a.src.chat), a.id), PhoneOf(known, a.src.sender);
    TaughtKeepsTables(s.db, a.src);
    WithNamesKeepsTables(
      Receive(Taught(s.db, a.src), key, sender, ChatNameOf(a), a.src.isGroup, a.content, rowid), sender, a);
  }

  // A push name is kept as one, with the number it belongs to, for the sender and for the paired phone address;
  // nobody's other names are touched, and our own sends and unnamed ones change no contact.
  lemma PushNameIsKept(db: Db, sender: string, a: Arrival)
    requires !a.content.fromMe && a.pushName != ""
    ensures var db' := WithNames(db, sender, a);
      && sender in db'.contacts && db'.contacts[sender].pushName == a.pushName
      && (forall j :: j in db.contacts ==>
            j in db'.contacts && db'.contacts[j].fullName == db.contacts[j].fullName &&
            db'.contacts[j].businessName == db.contacts[j].businessName)
      && (ServerOf(a.src.sender) == "lid" && ServerOf(a.src.senderAlt) == "s.whatsapp.net" ==>
            NamedAs(db', BareLID(a.src.senderAlt), a.pushName))
      && (ServerOf(a.src.sender) == "s.whatsapp.net" && ServerOf(a.src.senderAlt) == "lid" ==>
            NamedAs(db', BareLID(a.src.sender), a.pushName))
      && (PhoneDigits(BareLID(sender)) != "" ==> db'.contacts[sender].phone == PhoneDigits(BareLID(sender)))
  {
    var p, own := LidPairing(a.src), UpsertContact(db, sender, PushNamed(sender, a.pushName));
    UpsertContactFields(db, sender, PushNamed(sender, a.pushName));
    if p.Pairing? && p.pn != sender {
      UpsertContactFields(own, p.pn, PushNamed(p.pn, a.pushName));
    }
  }

  predicate NamedAs(db: Db, jid: string, pushName: string) {
    jid in db.contacts && db.contacts[jid].pushName == pushName
  }

  lemma OwnSendsNameNobody(db: Db, sender: string, a: Arrival)
    requires a.content.fromMe || a.pushName == ""
    ensures WithNames(db, sender, a) == db
  {
  }

  /* ----- what is known only grows ----- */

  ghost predicate Within(known: Pairings, all: Pairings) {
    forall user :: user in known ==> user in all && all[user] == known[user]
  }

  lemma RememberStaysWithin(known: Pairings, all: Pairings, lid: string, pn: string)
    requires Within(known, all)
    requires ServerOf(lid) == LID_SERVER && ServerOf(pn) == PHONE_SERVER ==> Holds(all, lid, BareLID(pn))
    ensures Within(Remember(known, lid, pn), all) && Within(known, Remember(known, lid, pn))
  {
  }

  lemma LearnedStaysWithin(known: Pairings, all: Pairings, src: Source)
    requires Within(known, all)
    requires LidPairing(src).Pairing? ==> Holds(all, LidPairing(src).canon, LidPairing(src).pn)
    requires ChatPairing(src).Pairing? ==> Holds(all, ChatPairing(src).canon, ChatPairing(src).pn)
    ensures Within(Learned(known, src), all) && Within(known, Learned(known, src))
  {
    BareKeepsServerAndUser(src.sender);
    BareKeepsServerAndUser(src.senderAlt);
    var own := LearnedBySender(known, src);
    if LidPairing(src).Pairing? {
      RememberStaysWithin(known, all, src.sender, src.senderAlt);
      RememberStaysWithin(Remember(known, src.sender, src.senderAlt), all, src.senderAlt, src.sender);
    }
    var c := ChatPairing(src);
    if c.Pairing? {
      BareIsBare(src.chat);
      BareIsBare(src.recipientAlt);
      RememberStaysWithin(own, all, c.canon, c.pn);
    }
  }

  lemma BareIsBare(jid: string)
    ensures BareLID(BareLID(jid)) == BareLID(jid)
  {
    BareKeepsServerAndUser(jid);
    if IndexOf(jid, '@') < |jid| {
      var user, server := UserOnly(jid), ServerOf(jid);
      assert user + "@" + server == user + ['@'] + server;
      IndexOfPrefix(user, server, '@');
    }
  }

  lemma StepStaysWithin(s: State, all: Pairings, e: Event)
    requires Within(s.known, all) && TellsTruth(all, e)
    ensures Within(Step(s, e).known, all) && Within(s.known, Step(s, e).known)
  {
    if e.Arrived? {
      LearnedStaysWithin(s.known, all, e.arrival.src);
    }
  }

  lemma {:induction false} RunStaysWithin(all: Pairings, es: seq<Event>)
    requires forall i :: 0 <= i < |es| ==> TellsTruth(all, es[i])
    ensures Within(Run(es).known, all)
  {
    if es != [] {
      RunStaysWithin(all, es[..|es| - 1]);
      StepStaysWithin(Run(es[..|es| - 1]), all, es[|es| - 1]);
    }
  }

  lemma WithinIsBelow(r0: Resolver, r: Resolver, known: Pairings, all: Pairings)
    requires Means(r0, known) && Means(r, all) && Within(known, all)
    ensures Below(r0, r)
  {
  }

  // Resolving part of the way changes nothing about where the whole way leads.
  lemma PartWayIsCanon(r0: Resolver, r: Resolver, known: Pairings, jid: string)
    requires PhoneValued(known) && Means(r0, known) && Sound(r) && Below(r0, r)
    ensures Canon(r, PhoneOf(known, jid)) == Canon(r, jid)
  {
    PhoneOfIsCanon(r0, known, jid);
  }

  lemma TruthfulPrefix(all: Pairings, es: seq<Event>)
    requires Truthful(all, es) && es != []
    ensures Truthful(all, es[..|es| - 1]) && TellsTruth(all, es[|es| - 1])
    ensures FoldScans(Run(es[..|es| - 1]), es[|es| - 1])
  {
    TruePrefix(all, es, |es| - 1);
    ScansPrefix(es, |es| - 1);
    assert ScansAt(es, |es| - 1);
  }

  lemma TruePrefix(all: Pairings, es: seq<Event>, n: nat)
    requires n <= |es| && forall i :: 0 <= i < |es| ==> TellsTruth(all, es[i])
    ensures forall i :: 0 <= i < n ==> TellsTruth(all, es[..n][i])
  {
    forall i | 0 <= i < n
      ensures TellsTruth(all, es[..n][i])
    {
      assert es[..n][i] == es[i];
    }
  }

  lemma ScansPrefix(es: seq<Event>, n: nat)
    requires n <= |es| && forall i :: 0 <= i < |es| ==> ScansAt(es, i)
    ensures forall i :: 0 <= i < n ==> ScansAt(es[..n], i)
  {
    forall i | 0 <= i < n
      ensures ScansAt(es[..n], i)
    {
      ScansAtPrefix(es, n, i);
    }
  }

  lemma ScansAtPrefix(es: seq<Event>, n: nat, i: nat)
    requires i < n <= |es|
    ensures ScansAt(es[..n], i) <==> ScansAt(es, i)
  {
    assert es[..n][..i] == es[..i] && es[..n][i] == es[i];
  }

  /* ----- late is early, over whole runs ----- */

  lemma ConversationStaysInStep(r: Resolver, s: State, early: Db, e: Event, said: map<Key, Payload>)
    requires Sound(r) && e.Conversation? && Canon(r, PhoneOf(s.known, e.jid)) == Canon(r, e.jid)
    requires FoldTheorems.InStep(r, s.db, early, said)
    ensures FoldTheorems.InStep(r, Step(s, e).db, UpsertChat(early, Canon(r, e.jid), e.name, e.isGroup, e.at), said)
  {
    var seen := FoldTheorems.Seen(PhoneOf(s.known, e.jid), e.name, e.isGroup, e.at);
    FoldTheorems.SeenStaysInStep(r, s.db, early, seen, said);
  }

  lemma TaughtKeepsTables(db: Db, src: Source)
    ensures Taught(db, src) == db.(lidMap := Taught(db, src).lidMap)
  {
    assert TaughtBySender(db, src) == db.(lidMap := TaughtBySender(db, src).lidMap);
  }

  lemma WithNamesKeepsTables(db: Db, sender: string, a: Arrival)
    ensures WithNames(db, sender, a) == db.(contacts := WithNames(db, sender, a).contacts)
  {
  }

  // Pairings and names are not part of what late and early have in common.
  lemma OtherTablesStayInStep(r: Resolver, db: Db, db': Db, early: Db, said: map<Key, Payload>)
    requires FoldTheorems.InStep(r, db, early, said) && db'.chats == db.chats && db'.messages == db.messages
    ensures FoldTheorems.InStep(r, db', early, said)
  {
  }

  lemma ReceivedPartWay(r: Resolver, db: Db, early: Db, chat: string, sender: string, a: Arrival, rowid: int,
                        said: map<Key, Payload>)
    requires Sound(r) && FoldTheorems.InStep(r, db, early, said)
    requires Canon(r, chat) == Canon(r, a.src.chat) && Canon(r, sender) == Canon(r, a.src.sender)
    requires SaidOf(r, a, said)
    ensures FoldTheorems.InStep(r, Receive(db, Key(chat, a.id), sender, ChatNameOf(a), a.src.isGroup, a.content, rowid),
              Resolved(r, early, a, rowid), said)
  {
    var e := FoldTheorems.Received(Key(chat, a.id), sender, ChatNameOf(a), a.src.isGroup, a.content, rowid);
    FoldTheorems.ReceivedStaysInStep(r, db, early, e, said);
  }

  lemma MessageStaysInStep(r: Resolver, s: State, early: Db, a: Arrival, rowid: int, said: map<Key, Payload>)
    requires Sound(r) && FoldTheorems.InStep(r, s.db, early, said)
    requires Canon(r, PhoneOf(Learned(s.known, a.src), a.src.chat)) == Canon(r, a.src.chat)
    requires Canon(r, PhoneOf(Learned(s.known, a.src), a.src.sender)) == Canon(r, a.src.sender)
    requires SaidOf(r, a, said)
    ensures FoldTheorems.InStep(r, Arrive(s, a, rowid).db, Resolved(r, early, a, rowid), said)
  {
    var known := Learned(s.known, a.src);
    var chat, sender := PhoneOf(known, a.src.chat), PhoneOf(known, a.src.sender);
    var taught := Taught(s.db, a.src);
    var db := Receive(taught, Key(chat, a.id), sender, ChatNameOf(a), a.src.isGroup, a.content, rowid);
    TaughtKeepsTables(s.db, a.src);
    OtherTablesStayInStep(r, s.db, taught, early, said);
    ReceivedPartWay(r, taught, early, chat, sender, a, rowid, said);
    WithNamesKeepsTables(db, sender, a);
    OtherTablesStayInStep(r, db, WithNames(db, sender, a), Resolved(r, early, a, rowid), said);
  }

  lemma StepStaysInStep(r0: Resolver, r: Resolver, s: State, early: Db, e: Event, said: map<Key, Payload>)
    requires PhoneValued(Step(s, e).known) && Means(r0, Step(s, e).known) && Sound(r) && Below(r0, r)
    requires FoldTheorems.InStep(r, s.db, early, said)
    requires e.Arrived? ==> SaidOf(r, e.arrival, said)
    requires FoldScans(s, e) && (e.FoldAll? ==> BridgeResolver(s.known) == r0)
    ensures FoldTheorems.InStep(r, Step(s, e).db, EarlyStep(r, early, e), said)
  {
    match e
    case Paired(_, _) =>
    case Conversation(jid, _, _, _) =>
      PartWayIsCanon(r0, r, s.known, jid);
      ConversationStaysInStep(r, s, early, e, said);
    case Arrived(a, rowid) =>
      PartWayIsCanon(r0, r, Learned(s.known, a.src), a.src.chat);
      PartWayIsCanon(r0, r, Learned(s.known, a.src), a.src.sender);
      MessageStaysInStep(r, s, early, a, rowid, said);
    case FoldAll(scan) =>
      FoldTheorems.FoldStaysInStep(r0, r, s.db, early, scan, said);
  }

  lemma RepeatsPrefix(r: Resolver, es: seq<Event>, said: map<Key, Payload>)
    requires Repeats(r, es, said) && es != []
    ensures Repeats(r, es[..|es| - 1], said)
    ensures es[|es| - 1].Arrived? ==> SaidOf(r, es[|es| - 1].arrival, said)
  {
  }

  // What is known after a truthful run resolves only truly.
  lemma KnownIsBelow(all: Pairings, r: Resolver, es: seq<Event>)
    requires Truthful(all, es) && Means(r, all)
    ensures PhoneValued(Run(es).known) && Means(BridgeResolver(Run(es).known), Run(es).known)
    ensures Below(BridgeResolver(Run(es).known), r)
  {
    RunStaysWithin(all, es);
    BridgeResolverMeans(Run(es).known);
    WithinIsBelow(BridgeResolver(Run(es).known), r, Run(es).known, all);
  }

  lemma {:induction false} RunStaysInStep(all: Pairings, r: Resolver, es: seq<Event>, said: map<Key, Payload>)
    requires Truthful(all, es) && Means(r, all) && Repeats(r, es, said)
    ensures FoldTheorems.InStep(r, Run(es).db, EarlyRun(r, es), said)
  {
    if es != [] {
      var before, e := es[..|es| - 1], es[|es| - 1];
      TruthfulPrefix(all, es);
      RepeatsPrefix(r, es, said);
      RunStaysInStep(all, r, before, said);
      KnownIsBelow(all, r, es);
      StepStaysInStep(BridgeResolver(Run(es).known), r, Run(before), EarlyRun(r, before), e, said);
    }
  }

  // However late the pairings turned up and however often it folded on the way, after a last fold that knows them all
  // the store holds the messages and last times it would hold had every address been resolved before it was written.
  lemma RunFoldsAsIfResolvedEarly(all: Pairings, es: seq<Event>, said: map<Key, Payload>, scan: Scan)
    requires Truthful(all, es) && Repeats(BridgeResolver(all), es, said) && Scans(Run(es).db, BridgeResolver(all), scan)
    ensures var r := BridgeResolver(all);
            var late, early := FoldLIDs(Run(es).db, r, scan).db, EarlyRun(r, es);
      && late.messages.Keys == early.messages.Keys && late.chats.Keys == early.chats.Keys
      && (forall k :: k in late.messages ==>
            late.messages[k].senderJID == early.messages[k].senderJID &&
            late.messages[k].content == early.messages[k].content)
      && (forall j :: j in late.chats ==> late.chats[j].lastMessageAt == early.chats[j].lastMessageAt)
  {
    BridgeResolverMeans(all);
    RunStaysInStep(all, BridgeResolver(all), es, said);
    FoldTheorems.InStepFoldsAlike(BridgeResolver(all), Run(es).db, EarlyRun(BridgeResolver(all), es), scan, said);
  }

  /* ----- every run leaves what a fold needs ----- */

  // Every recorded pairing leads to a phone address, and to the true one.
  ghost predicate TrueMap(all: Pairings, lidMap: map<string, string>) {
    forall l :: l in lidMap ==>
      ServerOf(lidMap[l]) == PHONE_SERVER &&
      (ServerOf(l) == LID_SERVER && UserOnly(l) in all ==> lidMap[l] == all[UserOnly(l)])
  }

  // And no message lacks its chat row or is newer than it says.
  ghost predicate Sane(all: Pairings, db: Db) {
    Bounds(db) && TrueMap(all, db.lidMap)
  }

  lemma TrueMapAgrees(r: Resolver, known: Pairings, all: Pairings, lidMap: map<string, string>)
    requires Means(r, known) && Within(known, all) && TrueMap(all, lidMap)
    ensures FoldTheorems.MapAgrees(r, lidMap)
  {
  }

  lemma MappingStaysTrue(all: Pairings, db: Db, lid: string, pn: string)
    requires PhoneValued(all) && TrueMap(all, db.lidMap) && Holds(all, lid, pn)
    ensures TrueMap(all, UpsertLIDMapping(db, lid, pn).lidMap)
  {
  }

  lemma TaughtStaysTrue(all: Pairings, db: Db, src: Source)
    requires PhoneValued(all) && TrueMap(all, db.lidMap)
    requires LidPairing(src).Pairing? ==> Holds(all, LidPairing(src).canon, LidPairing(src).pn)
    requires ChatPairing(src).Pairing? ==> Holds(all, ChatPairing(src).canon, ChatPairing(src).pn)
    ensures TrueMap(all, Taught(db, src).lidMap)
  {
    var p, c := LidPairing(src), ChatPairing(src);
    if p.Pairing? {
      ExactAndBareAreOneUser(src);
      MappingStaysTrue(all, db, p.exact, p.pn);
      MappingStaysTrue(all, UpsertLIDMapping(db, p.exact, p.pn), p.canon, p.pn);
    }
    if c.Pairing? {
      MappingStaysTrue(all, TaughtBySender(db, src), c.canon, c.pn);
    }
  }

  lemma ExactAndBareAreOneUser(src: Source)
    requires LidPairing(src).Pairing?
    ensures UserOnly(LidPairing(src).exact) == UserOnly(LidPairing(src).canon)
  {
    BareKeepsServerAndUser(src.sender);
  }

  lemma ReceiveKeepsBounds(db: Db, key: Key, sender: string, chatName: string, isGroup: bool,
                           content: Content, rowid: int)
    requires Bounds(db)
    ensures Bounds(Receive(db, key, sender, chatName, isGroup, content, rowid))
  {
  }

  lemma FoldStaysSane(all: Pairings, known: Pairings, r0: Resolver, db: Db, scan: Scan)
    requires Sane(all, db) && PhoneValued(known) && Within(known, all) && Means(r0, known) && Scans(db, r0, scan)
    ensures Sane(all, FoldLIDs(db, r0, scan).db)
  {
    FoldTheorems.FoldKeepsBounds(db, r0, scan);
    FoldTheorems.FoldMapGrows(db, r0, scan);
    GrownMapStaysTrue(all, known, r0, db.lidMap, FoldLIDs(db, r0, scan).db.lidMap);
  }

  lemma GrownMapStaysTrue(all: Pairings, known: Pairings, r0: Resolver,
                          was: map<string, string>, now: map<string, string>)
    requires TrueMap(all, was) && FoldTheorems.MapGrows(r0, was, now)
    requires PhoneValued(known) && Within(known, all) && Answers(r0, known)
    ensures TrueMap(all, now)
  {
  }

  lemma MessageStaysSane(all: Pairings, s: State, a: Arrival, rowid: int)
    requires PhoneValued(all) && TellsTruth(all, Arrived(a, rowid)) && Sane(all, s.db)
    ensures Sane(all, Arrive(s, a, rowid).db)
  {
    var known := Learned(s.known, a.src);
    var taught := Taught(s.db, a.src);
    TaughtStaysTrue(all, s.db, a.src);
    TaughtKeepsTables(s.db, a.src);
    var key, sender := Key(PhoneOf(known, a.src.chat), a.id), PhoneOf(known, a.src.sender);
    ReceiveKeepsBounds(taught, key, sender, ChatNameOf(a), a.src.isGroup, a.content, rowid);
    WithNamesKeepsTables(Receive(taught, key, sender, ChatNameOf(a), a.src.isGroup, a.content, rowid), sender, a);
  }

  lemma {:induction false} RunStaysSane(all: Pairings, es: seq<Event>)
    requires Truthful(all, es)
    ensures Sane(all, Run(es).db)
  {
    if es != [] {
      var before, e := es[..|es| - 1], es[|es| - 1];
      TruthfulPrefix(all, es);
      RunStaysSane(all, before);
      RunStaysWithin(all, before);
      match e
      case Arrived(a, rowid) => MessageStaysSane(all, Run(before), a, rowid);
      case FoldAll(scan) =>
        BridgeResolverMeans(Run(before).known);
        FoldStaysSane(all, Run(before).known, BridgeResolver(Run(before).known), Run(before).db, scan);
      case _ =>
    }
  }

  /* ----- what a run teaches ----- */

  lemma SenderIsLearned(known: Pairings, all: Pairings, src: Source)
    requires Within(known, all) && LidPairing(src).Pairing?
    requires Holds(all, LidPairing(src).canon, LidPairing(src).pn)
    ensures Holds(LearnedBySender(known, src), LidPairing(src).canon, LidPairing(src).pn)
  {
    BareKeepsServerAndUser(src.sender);
    BareKeepsServerAndUser(src.senderAlt);
  }

  lemma ChatIsLearned(known: Pairings, src: Source)
    requires ChatPairing(src).Pairing?
    ensures Holds(Learned(known, src), ChatPairing(src).canon, ChatPairing(src).pn)
  {
    PairingsAreLids(src);
    BareKeepsServerAndUser(src.chat);
    BareKeepsServerAndUser(src.recipientAlt);
    BareIsBare(src.chat);
    BareIsBare(src.recipientAlt);
  }

  lemma EventIsLearned(s: State, all: Pairings, e: Event)
    requires Within(s.known, all) && TellsTruth(all, e)
    ensures TellsTruth(Step(s, e).known, e)
  {
    if e.Arrived? {
      var src := e.arrival.src;
      if LidPairing(src).Pairing? {
        SenderIsLearned(s.known, all, src);
        LearnedStaysWithin(s.known, all, src);
        SenderStaysLearned(s.known, all, src);
      }
      if ChatPairing(src).Pairing? {
        ChatIsLearned(s.known, src);
      }
    }
  }

  // The chat's pairing, being true, leaves the sender's in place.
  lemma SenderStaysLearned(known: Pairings, all: Pairings, src: Source)
    requires Within(known, all) && LidPairing(src).Pairing? && Within(Learned(known, src), all)
    requires Holds(all, LidPairing(src).canon, LidPairing(src).pn)
    requires Holds(LearnedBySender(known, src), LidPairing(src).canon, LidPairing(src).pn)
    ensures Holds(Learned(known, src), LidPairing(src).canon, LidPairing(src).pn)
  {
  }

  lemma TruthLasts(known: Pairings, more: Pairings, e: Event)
    requires TellsTruth(known, e) && Within(known, more)
    ensures TellsTruth(more, e)
  {
  }

  // A truthful run told the truth about what it ended up knowing, too.
  lemma {:induction false} KnownIsTruth(all: Pairings, es: seq<Event>)
    requires forall i :: 0 <= i < |es| ==> TellsTruth(all, es[i])
    ensures forall i :: 0 <= i < |es| ==> TellsTruth(Run(es).known, es[i])
  {
    if es != [] {
      var before, e := es[..|es| - 1], es[|es| - 1];
      KnownIsTruth(all, before);
      RunStaysWithin(all, before);
      StepStaysWithin(Run(before), all, e);
      EventIsLearned(Run(before), all, e);
      forall i | 0 <= i < |before|
        ensures TellsTruth(Run(es).known, es[i])
      {
        assert before[i] == es[i];
        TruthLasts(Run(before).known, Run(es).known, es[i]);
      }
    }
  }

  lemma KnownIsTruthful(all: Pairings, es: seq<Event>)
    requires Truthful(all, es)
    ensures Truthful(Run(es).known, es)
  {
    KnownIsTruth(all, es);
    RunStaysWithin(all, es);
  }

  // Under repeat deliveries of one payload the stored copies of a message agree on its sender.
  lemma RunCopiesAgree(all: Pairings, es: seq<Event>, said: map<Key, Payload>)
    requires Truthful(all, es) && Repeats(BridgeResolver(Run(es).known), es, said)
    ensures FoldTheorems.SendersAgree(BridgeResolver(Run(es).known), Run(es).db.messages)
  {
    KnownIsTruthful(all, es);
    BridgeResolverMeans(Run(es).known);
    RunStaysInStep(Run(es).known, BridgeResolver(Run(es).known), es, said);
    FoldTheorems.SayingOneThingAgrees(BridgeResolver(Run(es).known), Run(es).db.messages, said);
  }

  // The fold the bridge can actually run, with what it knows by then, equals resolving with that from the start.
  lemma BridgeFoldsAsIfResolvedEarly(all: Pairings, es: seq<Event>, said: map<Key, Payload>, scan: Scan)
    requires Truthful(all, es) && Repeats(BridgeResolver(Run(es).known), es, said)
    requires Scans(Run(es).db, BridgeResolver(Run(es).known), scan)
    ensures var r := BridgeResolver(Run(es).known);
            var late, early := FoldLIDs(Run(es).db, r, scan).db, EarlyRun(r, es);
      && late.messages.Keys == early.messages.Keys && late.chats.Keys == early.chats.Keys
      && (forall k :: k in late.messages ==>
            late.messages[k].senderJID == early.messages[k].senderJID &&
            late.messages[k].content == early.messages[k].content)
      && (forall j :: j in late.chats ==> late.chats[j].lastMessageAt == early.chats[j].lastMessageAt)
  {
    KnownIsTruthful(all, es);
    RunFoldsAsIfResolvedEarly(Run(es).known, es, said, scan);
  }

  // So after any run a fold conserves the messages, leaves nothing resolvable, keeps every chat's time a bound,
  // and takes no contact's name off the screen, from no address and from no message.
  lemma FoldAfterAnyRun(all: Pairings, es: seq<Event>, said: map<Key, Payload>, scan: Scan)
    requires Truthful(all, es) && Scans(Run(es).db, BridgeResolver(Run(es).known), scan)
    ensures var r, db := BridgeResolver(Run(es).known), Run(es).db;
            var db' := FoldLIDs(db, r, scan).db;
      && db'.messages.Keys == ViewKeys(r, db.messages) && FoldTheorems.Canonical(r, db') && Bounds(db')
      && (forall jid :: ContactChain(db, jid) != "" ==> ContactChain(db', Canon(r, jid)) != "")
      && (Repeats(r, es, said) ==>
            forall k :: k in db.messages && ContactChain(db, db.messages[k].senderJID) != "" ==>
              CanonKey(r, k) in db'.messages && ContactChain(db', db'.messages[CanonKey(r, k)].senderJID) != "")
  {
    var r, db := BridgeResolver(Run(es).known), Run(es).db;
    RunStaysSane(all, es);
    RunStaysWithin(all, es);
    BridgeResolverMeans(Run(es).known);
    TrueMapAgrees(r, Run(es).known, all, db.lidMap);
    FoldTheorems.FoldConservesMessages(db, r, scan);
    FoldTheorems.FoldKeepsBounds(db, r, scan);
    if Repeats(r, es, said) {
      RunCopiesAgree(all, es, said);
    }
    FoldTheorems.FoldLosesNoName(db, r, scan);
  }

  /* ----- redelivery ----- */

  function Write(m: Pairings, on: bool, user: string, pn: string): Pairings {
    if on then m[user := pn] else m
  }

  lemma WritesTwice(m: Pairings, on: bool, a: string, x: string, on': bool, b: string, y: string,
                    on'': bool, c: string, z: string)
    ensures var once := Write(Write(Write(m, on, a, x), on', b, y), on'', c, z);
            Write(Write(Write(once, on, a, x), on', b, y), on'', c, z) == once
  {
  }

  function Pairs(lid: string, pn: string): bool {
    ServerOf(lid) == LID_SERVER && ServerOf(pn) == PHONE_SERVER
  }

  lemma LearnedIsWrites(known: Pairings, src: Source)
    ensures var p, c := LidPairing(src).Pairing?, ChatPairing(src);
            var lid, pn := if c.Pairing? then c.canon else "", if c.Pairing? then c.pn else "";
            Learned(known, src) ==
            Write(Write(Write(known,
                              p && Pairs(src.sender, src.senderAlt), UserOnly(src.sender), BareLID(src.senderAlt)),
                        p && Pairs(src.senderAlt, src.sender), UserOnly(src.senderAlt), BareLID(src.sender)),
                  Pairs(lid, pn), UserOnly(lid), BareLID(pn))
  {
  }

  lemma LearnedTwice(known: Pairings, src: Source)
    ensures Learned(Learned(known, src), src) == Learned(known, src)
  {
    var p, c := LidPairing(src).Pairing?, ChatPairing(src);
    var lid, pn := if c.Pairing? then c.canon else "", if c.Pairing? then c.pn else "";
    LearnedIsWrites(known, src);
    LearnedIsWrites(Learned(known, src), src);
    WritesTwice(known, p && Pairs(src.sender, src.senderAlt), UserOnly(src.sender), BareLID(src.senderAlt),
                p && Pairs(src.senderAlt, src.sender), UserOnly(src.senderAlt), BareLID(src.sender),
                Pairs(lid, pn), UserOnly(lid), BareLID(pn));
  }

  function Put(m: map<string, string>, lid: string, pn: string): map<string, string> {
    if lid == "" || pn == "" then m else m[lid := pn]
  }

  lemma PutsTwice(m: map<string, string>, a: string, b: string, x: string, c: string, y: string)
    ensures var once := Put(Put(Put(m, a, x), b, x), c, y); Put(Put(Put(once, a, x), b, x), c, y) == once
  {
  }

  lemma TaughtIsPuts(db: Db, src: Source)
    ensures var p, c := LidPairing(src), ChatPairing(src);
            var own := if p.Pairing? then Put(Put(db.lidMap, p.exact, p.pn), p.canon, p.pn) else db.lidMap;
            Taught(db, src).lidMap == if c.Pairing? then Put(own, c.canon, c.pn) else own
  {
    var p, c := LidPairing(src), ChatPairing(src);
    if p.Pairing? {
      UpsertIsPut(db, p.exact, p.pn);
      UpsertIsPut(UpsertLIDMapping(db, p.exact, p.pn), p.canon, p.pn);
    }
    if c.Pairing? {
      UpsertIsPut(TaughtBySender(db, src), c.canon, c.pn);
    }
  }

  lemma UpsertIsPut(db: Db, lid: string, pn: string)
    ensures UpsertLIDMapping(db, lid, pn).lidMap == Put(db.lidMap, lid, pn)
  {
  }

  lemma TaughtTwice(db: Db, src: Source, db': Db)
    requires db'.lidMap == Taught(db, src).lidMap
    ensures Taught(db', src) == db'
  {
    var p, c := LidPairing(src), ChatPairing(src);
    TaughtIsPuts(db, src);
    TaughtIsPuts(db', src);
    PutsTwice(db.lidMap, if p.Pairing? then p.exact else "", if p.Pairing? then p.canon else "",
              if p.Pairing? then p.pn else "", if c.Pairing? then c.canon else "", if c.Pairing? then c.pn else "");
    TaughtKeepsTables(db', src);
  }

  // The row already says all that c does.
  ghost predicate Covers(contacts: map<string, Contact>, jid: string, c: Contact) {
    jid in contacts &&
    Keep(c.phone, contacts[jid].phone) == contacts[jid].phone &&
    Keep(c.pushName, contacts[jid].pushName) == contacts[jid].pushName &&
    Keep(c.fullName, contacts[jid].fullName) == contacts[jid].fullName &&
    Keep(c.businessName, contacts[jid].businessName) == contacts[jid].businessName
  }

  lemma UpsertCovers(db: Db, jid: string, c: Contact)
    ensures Covers(UpsertContact(db, jid, c).contacts, jid, c)
    ensures forall j, d :: j != jid && Covers(db.contacts, j, d) ==> Covers(UpsertContact(db, jid, c).contacts, j, d)
  {
  }

  lemma CoveredIsUnchanged(db: Db, jid: string, c: Contact)
    requires Covers(db.contacts, jid, c)
    ensures UpsertContact(db, jid, c) == db
  {
  }

  lemma NamesTwice(db: Db, sender: string, a: Arrival, db': Db)
    requires db'.contacts == WithNames(db, sender, a).contacts
    ensures WithNames(db', sender, a) == db'
  {
    var p, c := LidPairing(a.src), PushNamed(sender, a.pushName);
    if !a.content.fromMe && a.pushName != "" {
      UpsertCovers(db, sender, c);
      if p.Pairing? && p.pn != sender {
        UpsertCovers(UpsertContact(db, sender, c), p.pn, PushNamed(p.pn, a.pushName));
        CoveredIsUnchanged(db', p.pn, PushNamed(p.pn, a.pushName));
      }
      CoveredIsUnchanged(db', sender, c);
    }
  }

  // The row already there keeps its rowid, whatever rowid a new one would have taken.
  lemma ReceiveTwice(db: Db, key: Key, sender: string, chatName: string, isGroup: bool, content: Content, rowid: int,
                     db': Db, again: int)
    requires db'.chats == Receive(db, key, sender, chatName, isGroup, content, rowid).chats
    requires db'.messages == Receive(db, key, sender, chatName, isGroup, content, rowid).messages
    ensures Receive(db', key, sender, chatName, isGroup, content, again) == db'
  {
    var twice := Receive(db', key, sender, chatName, isGroup, content, again);
    assert twice.messages == db'.messages;
    assert twice.chats == db'.chats;
  }

  // The same event delivered again changes nothing, so a redelivery can only repair.
  lemma RedeliveryIsIdempotent(s: State, a: Arrival, rowid: int, again: int)
    ensures Arrive(Arrive(s, a, rowid), a, again) == Arrive(s, a, rowid)
  {
    var s' := Arrive(s, a, rowid);
    var known := Learned(s.known, a.src);
    var key, sender := Key(PhoneOf(known, a.src.chat), a.id), PhoneOf(known, a.src.sender);
    var taught := Taught(s.db, a.src);
    var received := Receive(taught, key, sender, ChatNameOf(a), a.src.isGroup, a.content, rowid);
    LearnedTwice(s.known, a.src);
    WithNamesKeepsTables(received, sender, a);
    TaughtTwice(s.db, a.src, s'.db);
    ReceiveTwice(taught, key, sender, ChatNameOf(a), a.src.isGroup, a.content, rowid, s'.db, again);
    NamesTwice(received, sender, a, s'.db);
  }

  /* ----- names survive ingest ----- */

  lemma UpsertContactBlanksNothing(db: Db, jid: string, c: Contact)
    ensures forall j :: NameOn(db.contacts, j) != "" ==> NameOn(UpsertContact(db, jid, c).contacts, j) != ""
    ensures ContactName(c) != "" ==> NameOn(UpsertContact(db, jid, c).contacts, jid) != ""
  {
  }

  lemma WithNamesBlanksNothing(db: Db, sender: string, a: Arrival)
    ensures forall j :: NameOn(db.contacts, j) != "" ==> NameOn(WithNames(db, sender, a).contacts, j) != ""
  {
    var own := UpsertContact(db, sender, PushNamed(sender, a.pushName));
    UpsertContactBlanksNothing(db, sender, PushNamed(sender, a.pushName));
    if LidPairing(a.src).Pairing? {
      UpsertContactBlanksNothing(own, LidPairing(a.src).pn, PushNamed(LidPairing(a.src).pn, a.pushName));
    }
  }

  ghost predicate Extends(was: map<string, string>, now: map<string, string>) {
    forall l :: l in was ==> l in now && now[l] == was[l]
  }

  // A true pairing overwrites nothing recorded earlier.
  lemma MappingExtends(all: Pairings, db: Db, lid: string, pn: string)
    requires PhoneValued(all) && TrueMap(all, db.lidMap) && Holds(all, lid, pn) && ServerOf(lid) == LID_SERVER
    ensures Extends(db.lidMap, UpsertLIDMapping(db, lid, pn).lidMap)
    ensures TrueMap(all, UpsertLIDMapping(db, lid, pn).lidMap)
  {
  }

  lemma PairingsAreLids(src: Source)
    ensures var p := LidPairing(src); p.Pairing? ==> ServerOf(p.exact) == ServerOf(p.canon) == LID_SERVER
    ensures var c := ChatPairing(src); c.Pairing? ==> ServerOf(c.canon) == LID_SERVER
  {
    BareServer(src.sender);
    BareServer(src.senderAlt);
    BareServer(src.chat);
    BareServer(src.recipientAlt);
  }

  lemma BareServer(jid: string)
    ensures ServerOf(BareLID(jid)) == ServerOf(jid)
  {
    BareKeepsServerAndUser(jid);
  }

  lemma TaughtExtends(all: Pairings, db: Db, src: Source)
    requires PhoneValued(all) && TrueMap(all, db.lidMap)
    requires LidPairing(src).Pairing? ==> Holds(all, LidPairing(src).canon, LidPairing(src).pn)
    requires ChatPairing(src).Pairing? ==> Holds(all, ChatPairing(src).canon, ChatPairing(src).pn)
    ensures Extends(db.lidMap, Taught(db, src).lidMap)
  {
    var p, c := LidPairing(src), ChatPairing(src);
    PairingsAreLids(src);
    if p.Pairing? {
      ExactAndBareAreOneUser(src);
      MappingExtends(all, db, p.exact, p.pn);
      MappingExtends(all, UpsertLIDMapping(db, p.exact, p.pn), p.canon, p.pn);
    }
    if c.Pairing? {
      MappingExtends(all, TaughtBySender(db, src), c.canon, c.pn);
    }
  }

  lemma ReceiveKeepsNames(db: Db, key: Key, sender: string, chatName: string, isGroup: bool,
                          content: Content, rowid: int)
    ensures Receive(db, key, sender, chatName, isGroup, content, rowid).contacts == db.contacts
    ensures Receive(db, key, sender, chatName, isGroup, content, rowid).lidMap == db.lidMap
  {
  }

  // Nothing that arrives takes a contact's name off the screen.
  lemma ArrivalKeepsNames(all: Pairings, s: State, a: Arrival, rowid: int, jid: string)
    requires PhoneValued(all) && TellsTruth(all, Arrived(a, rowid)) && TrueMap(all, s.db.lidMap)
    requires ContactChain(s.db, jid) != ""
    ensures ContactChain(Arrive(s, a, rowid).db, jid) != ""
  {
    var known := Learned(s.known, a.src);
    var key, sender := Key(PhoneOf(known, a.src.chat), a.id), PhoneOf(known, a.src.sender);
    var taught := Taught(s.db, a.src);
    var received := Receive(taught, key, sender, ChatNameOf(a), a.src.isGroup, a.content, rowid);
    TaughtExtends(all, s.db, a.src);
    TaughtKeepsTables(s.db, a.src);
    ReceiveKeepsNames(taught, key, sender, ChatNameOf(a), a.src.isGroup, a.content, rowid);
    WithNamesBlanksNothing(received, sender, a);
    WithNamesKeepsTables(received, sender, a);
    ChainGrows(s.db, Arrive(s, a, rowid).db, jid);
  }

  lemma ChainGrows(was: Db, now: Db, jid: string)
    requires Extends(was.lidMap, now.lidMap) && ContactChain(was, jid) != ""
    requires forall j :: NameOn(was.contacts, j) != "" ==> NameOn(now.contacts, j) != ""
    ensures ContactChain(now, jid) != ""
  {
  }

  /* ----- the object ----- */

  class Bridge {
    var lidCache: Pairings
    var session: Pairings            // what the session store can look up, bare phone addresses
    const store: Store.MessageStore

    function Known(): Pairings
      reads this
    {
      session + lidCache
    }

    constructor (store: Store.MessageStore, session: Pairings)
      ensures this.store == store && Known() == session
    {
      this.store := store;
      this.session := session;
      lidCache := map[];
      new;
      assert Known() == session;
    }

    // Caching a looked-up pairing is invisible: what is known stays what it was.
    method PhoneJID(jid: string) returns (out: string)
      modifies this`lidCache
      ensures out == PhoneOf(old(Known()), jid) && Known() == old(Known())
    {
      if ServerOf(jid) != LID_SERVER {
        return jid;
      }
      var user := UserOnly(jid);
      if user in lidCache {
        return lidCache[user];
      }
      if user !in session {
        return jid;
      }
      out := session[user];
      lidCache := lidCache[user := out];
      assert Known() == old(Known());
    }

    method RememberLID(lid: string, pn: string)
      modifies this`lidCache
      ensures Known() == Remember(old(Known()), lid, pn)
    {
      if ServerOf(lid) != LID_SERVER || ServerOf(pn) != PHONE_SERVER {
        return;
      }
      lidCache := lidCache[UserOnly(lid) := BareLID(pn)];
      assert Known() == old(Known())[UserOnly(lid) := BareLID(pn)];
    }

    // What the fold asks about one privacy address.
    method Resolve(lid: string) returns (pn: string)
      modifies this`lidCache
      ensures pn == BridgeResolver(old(Known()))(lid) && Known() == old(Known())
    {
      if ServerOf(lid) != LID_SERVER {
        return "";
      }
      pn := PhoneJID(lid);
      if ServerOf(pn) != PHONE_SERVER {
        return "";
      }
    }

    function Now(): State
      reads this, store
    {
      State(store.Tables(), Known())
    }

    method LearnSender(src: Source)
      requires store.Valid()
      modifies this`lidCache, store`lidMap
      ensures store.Valid() && store.Tables() == TaughtBySender(old(store.Tables()), src)
      ensures Known() == LearnedBySender(old(Known()), src)
    {
      var p := LidPairing(src);
      if p.Pairing? {
        RememberLID(src.sender, src.senderAlt);
        RememberLID(src.senderAlt, src.sender);
        store.UpsertMapping(p.exact, p.pn);
        if p.canon != p.exact {
          store.UpsertMapping(p.canon, p.pn);
        }
      }
    }

    // The pairings a message carries go to the cache and to the table.
    method Learn(src: Source)
      requires store.Valid()
      modifies this`lidCache, store`lidMap
      ensures store.Valid() && store.Tables() == Taught(old(store.Tables()), src)
      ensures Known() == Learned(old(Known()), src)
    {
      LearnSender(src);
      var c := ChatPairing(src);
      if c.Pairing? {
        RememberLID(c.canon, c.pn);
        store.UpsertMapping(c.canon, c.pn);
      }
    }

    method NameSender(sender: string, a: Arrival)
      requires store.Valid()
      modifies store`contacts
      ensures store.Valid() && store.Tables() == WithNames(old(store.Tables()), sender, a)
    {
      if a.content.fromMe || a.pushName == "" {
        return;
      }
      store.UpsertContactRow(sender, PushNamed(sender, a.pushName));
      var p := LidPairing(a.src);
      if p.Pairing? && p.pn != sender {
        store.UpsertContactRow(p.pn, PushNamed(p.pn, a.pushName));
      }
    }

    method IngestMessage(a: Arrival, rowid: int)
      requires store.Valid() && rowid !in store.index
      modifies this`lidCache, store
      ensures store.Valid() && Now() == Arrive(old(Now()), a, rowid)
    {
      Learn(a.src);
      var chat := PhoneJID(a.src.chat);
      var sender := PhoneJID(a.src.sender);
      store.UpsertChatRow(chat, ChatNameOf(a), a.src.isGroup, a.content.ts);
      store.UpsertMessageRow(Key(chat, a.id), sender, a.content, rowid);
      NameSender(sender, a);
    }

    method IngestConversation(jid: string, name: string, isGroup: bool, at: int)
      requires store.Valid()
      modifies this`lidCache, store
      ensures store.Valid() && Now() == Step(old(Now()), Conversation(jid, name, isGroup, at))
    {
      var chat := PhoneJID(jid);
      store.UpsertChatRow(chat, name, isGroup, at);
    }

    method FoldLIDs() returns (stats: Stats, scan: Scan)
      requires store.Valid()
      modifies store
      ensures store.Valid() && Scans(old(Now()).db, BridgeResolver(old(Known())), scan)
      ensures stats == Fold.FoldLIDs(old(Now()).db, BridgeResolver(old(Known())), scan).stats
      ensures Known() == old(Known()) && store.Tables() == FoldAt(old(Now()), scan)
    {
      stats, scan := store.Fold(BridgeResolver(Known()));
    }
  }
}
