/** The message database: its tables, the addresses they are keyed on, and the single-row writes. */
module Tables {

  datatype Option<T> = None | Some(value: T)

  /* ----- addresses ----- */

  // A resolver names the phone address of a privacy address, or answers "" when it knows none.
  type Resolver = string -> string

  // Where c first stands in s, or the length of s.
  function IndexOf(s: string, c: char): (i: nat)
    ensures i <= |s| && (i < |s| ==> s[i] == c)
    ensures forall k :: 0 <= k < i ==> s[k] != c
  {
    if s == [] || s[0] == c then 0 else 1 + IndexOf(s[1..], c)
  }

  function UserOf(jid: string): string {
    jid[..IndexOf(jid, '@')]
  }

  function ServerOf(jid: string): string {
    var at := IndexOf(jid, '@');
    if at < |jid| then jid[at + 1..] else ""
  }

  function WithoutDevice(user: string): string {
    user[..IndexOf(user, ':')]
  }

  // "user:6@lid" is "user@lid": the pairing is per user, not per device.
  function BareLID(jid: string): string {
    if IndexOf(jid, '@') == |jid| then jid else WithoutDevice(UserOf(jid)) + "@" + ServerOf(jid)
  }

  function PhoneDigits(pn: string): string {
    if ServerOf(pn) == "s.whatsapp.net" && forall c :: c in UserOf(pn) ==> '0' <= c <= '9' then UserOf(pn) else ""
  }

  function LowerASCII(c: char): char {
    if 'A' <= c <= 'Z' then (c as int + 32) as char else c
  }

  // The pattern '%@lid', which ignores the case of ASCII letters.
  predicate LikeLid(jid: string) {
    4 <= |jid| && jid[|jid| - 4] == '@' && LowerASCII(jid[|jid| - 3]) == 'l' &&
    LowerASCII(jid[|jid| - 2]) == 'i' && LowerASCII(jid[|jid| - 1]) == 'd'
  }

  // It answers for privacy addresses only, with phone addresses only, and by user whatever the device.
  ghost predicate Sound(r: Resolver) {
    && (forall j :: r(j) != "" ==> LikeLid(j) && !LikeLid(r(j)))
    && (forall j :: r(BareLID(j)) == r(j))
  }

  // What the bridge passes to the fold: the pairings it has, by user.
  function BridgeResolver(pairings: map<string, string>): Resolver {
    (lid: string) =>
      var user := WithoutDevice(UserOf(lid));
      if ServerOf(lid) == "lid" && user in pairings && ServerOf(pairings[user]) == "s.whatsapp.net"
      then pairings[user] else ""
  }

  lemma {:induction false} IndexOfPrefix(s: string, rest: string, c: char)
    requires c !in s
    ensures IndexOf(s + [c] + rest, c) == |s|
  {
    if s != [] {
      IndexOfPrefix(s[1..], rest, c);
      assert (s + [c] + rest)[1..] == s[1..] + [c] + rest;
    } else {
      assert ([] + [c] + rest)[0] == c;
    }
  }

  lemma BareKeepsServerAndUser(jid: string)
    ensures ServerOf(BareLID(jid)) == ServerOf(jid)
    ensures WithoutDevice(UserOf(BareLID(jid))) == WithoutDevice(UserOf(jid))
  {
    if IndexOf(jid, '@') < |jid| {
      var user, server := WithoutDevice(UserOf(jid)), ServerOf(jid);
      assert '@' !in UserOf(jid);
      assert user + "@" + server == user + ['@'] + server;
      IndexOfPrefix(user, server, '@');
      assert UserOf(BareLID(jid)) == user;
      assert IndexOf(user, ':') == |user|;
    }
  }

  lemma PhoneIsNotLid(pn: string)
    requires ServerOf(pn) == "s.whatsapp.net"
    ensures pn != "" && !LikeLid(pn)
  {
  }

  lemma LidServerIsLid(jid: string)
    requires ServerOf(jid) == "lid"
    ensures LikeLid(jid)
  {
  }

  // Only phone addresses come out, and the device never reaches the lookup.
  lemma BridgeResolverIsSound(pairings: map<string, string>)
    ensures Sound(BridgeResolver(pairings))
  {
    var r := BridgeResolver(pairings);
    forall j
      ensures r(BareLID(j)) == r(j)
    {
      BareKeepsServerAndUser(j);
    }
    forall j | r(j) != ""
      ensures LikeLid(j) && !LikeLid(r(j))
    {
      LidServerIsLid(j);
      PhoneIsNotLid(pairings[WithoutDevice(UserOf(j))]);
    }
  }

  // Cutting an address at its first '@', and its user at the first ':'.
  lemma AddressParts(user: string, device: string, server: string)
    requires '@' !in user && ':' !in user && '@' !in device
    ensures UserOf(user + "@" + server) == user && ServerOf(user + "@" + server) == server
    ensures BareLID(user + "@" + server) == user + "@" + server
    ensures BareLID(user + ":" + device + "@" + server) == user + "@" + server
    ensures ServerOf(user + ":" + device + "@" + server) == server
    ensures BareLID(user) == user && ServerOf(user) == ""
  {
    NotFound(user, '@');
    UserAndServer(user, server);
    DeviceIsCut(user, device);
    BareOf(user, user, server);
    BareOf(user + ":" + device, user, server);
  }

  lemma DeviceIsCut(user: string, device: string)
    requires ':' !in user
    ensures WithoutDevice(user) == user && WithoutDevice(user + ":" + device) == user
  {
    NotFound(user, ':');
    assert user + ":" + device == user + [':'] + device;
    IndexOfPrefix(user, device, ':');
  }

  lemma BareOf(full: string, user: string, server: string)
    requires '@' !in full && WithoutDevice(full) == user
    ensures BareLID(full + "@" + server) == user + "@" + server && ServerOf(full + "@" + server) == server
  {
    UserAndServer(full, server);
  }

  lemma UserAndServer(user: string, server: string)
    requires '@' !in user
    ensures var jid := user + "@" + server;
            UserOf(jid) == user && ServerOf(jid) == server && IndexOf(jid, '@') == |user| < |jid|
  {
    assert user + "@" + server == user + ['@'] + server;
    IndexOfPrefix(user, server, '@');
  }

  lemma {:induction false} NotFound(s: string, c: char)
    requires c !in s
    ensures IndexOf(s, c) == |s|
  {
    if s != [] {
      NotFound(s[1..], c);
    }
  }

  // Only a phone address spelled in decimal digits gives a phone number, and it gives exactly those.
  lemma PhoneDigitsOf(user: string, server: string)
    requires '@' !in user
    ensures PhoneDigits(user + "@" + server) ==
            if server == "s.whatsapp.net" && forall c :: c in user ==> c in "0123456789" then user else ""
  {
    assert user + "@" + server == user + ['@'] + server;
    IndexOfPrefix(user, server, '@');
    assert UserOf(user + "@" + server) == user;
    forall c
      ensures '0' <= c <= '9' <==> c in "0123456789"
    {
      DecimalDigit(c);
    }
  }

  lemma DecimalDigit(c: char)
    ensures '0' <= c <= '9' <==> c in "0123456789"
  {
  }

  // The pattern matches any case of the four characters at the end, and nothing else.
  lemma LikeLidMeans(jid: string)
    ensures LikeLid(jid) <==>
            |jid| >= 4 && jid[|jid| - 4] == '@' && jid[|jid| - 3] in "lL" && jid[|jid| - 2] in "iI" &&
            jid[|jid| - 1] in "dD"
  {
  }

  /* ----- rows ----- */

  datatype Chat = Chat(name: string, isGroup: bool, archived: bool, lastMessageAt: int)

  datatype Key = Key(chatJID: string, id: string)

  datatype Content = Content(
    fromMe: bool,
    ts: int,
    kind: string,
    text: string,
    quotedID: string,
    mediaRef: Option<string>,
    mediaFilename: string)

  datatype Message = Message(rowid: int, senderJID: string, content: Content, readAt: int)

  datatype Contact = Contact(phone: string, pushName: string, fullName: string, businessName: string)

  datatype Call = Call(peerJID: string, ts: int, direction: string, status: string, isVideo: bool)

  datatype Db = Db(
    chats: map<string, Chat>,
    messages: map<Key, Message>,
    contacts: map<string, Contact>,
    calls: map<string, Call>,
    lidMap: map<string, string>)

  const EMPTY := Db(map[], map[], map[], map[], map[])

  function Max(a: int, b: int): int {
    if a < b then b else a
  }

  function Keep(own: string, other: string): string {
    if own != "" then own else other
  }

  /* ----- single-row writes ----- */

  function UpsertChat(db: Db, jid: string, name: string, isGroup: bool, at: int): Db {
    var row :=
      if jid in db.chats then
        var was := db.chats[jid];
        Chat(Keep(name, was.name), isGroup, was.archived, Max(was.lastMessageAt, at))
      else Chat(name, isGroup, false, at);
    db.(chats := db.chats[jid := row])
  }

  // A redelivered message keeps its row and when it was read.
  function UpsertMessage(db: Db, key: Key, sender: string, content: Content, rowid: int): Db {
    var row :=
      if key in db.messages then db.messages[key].(senderJID := sender, content := content)
      else Message(rowid, sender, content, 0);
    var chats :=
      if key.chatJID in db.chats
      then var was := db.chats[key.chatJID];
           db.chats[key.chatJID := was.(lastMessageAt := Max(was.lastMessageAt, content.ts))]
      else db.chats;
    db.(messages := db.messages[key := row], chats := chats)
  }

  function UpsertContact(db: Db, jid: string, c: Contact): Db {
    var row :=
      if jid in db.contacts then
        var was := db.contacts[jid];
        Contact(Keep(c.phone, was.phone), Keep(c.pushName, was.pushName),
                Keep(c.fullName, was.fullName), Keep(c.businessName, was.businessName))
      else c;
    db.(contacts := db.contacts[jid := row])
  }

  function UpsertLIDMapping(db: Db, lid: string, pn: string): Db {
    if lid == "" || pn == "" then db else db.(lidMap := db.lidMap[lid := pn])
  }

  predicate MarkHits(k: Key, chatJID: string, ids: seq<string>) {
    k.chatJID == chatJID && k.id in ids
  }

  function ReadBy(m: Message, readAt: int): Message {
    m.(readAt := Max(m.readAt, readAt))
  }

  function MarkRows(m: map<Key, Message>, chatJID: string, ids: seq<string>, readAt: int): map<Key, Message> {
    map k | k in m :: if MarkHits(k, chatJID, ids) then ReadBy(m[k], readAt) else m[k]
  }

  function MarkRead(db: Db, chatJID: string, ids: seq<string>, readAt: int): Db {
    db.(messages := MarkRows(db.messages, chatJID, ids, readAt))
  }

  ghost predicate ChatsMoveForward(was: map<string, Chat>, now: map<string, Chat>) {
    forall j :: j in was ==>
      j in now && was[j].lastMessageAt <= now[j].lastMessageAt && was[j].archived == now[j].archived &&
      (was[j].name != "" ==> now[j].name != "")
  }

  // A stale or redelivered write takes back neither a time, nor a name, nor a row, nor when it was read.
  lemma IngestMovesForward(db: Db, jid: string, name: string, isGroup: bool, at: int,
                           key: Key, sender: string, content: Content, rowid: int)
    ensures ChatsMoveForward(db.chats, UpsertChat(db, jid, name, isGroup, at).chats)
    ensures at <= UpsertChat(db, jid, name, isGroup, at).chats[jid].lastMessageAt
    ensures ChatsMoveForward(db.chats, UpsertMessage(db, key, sender, content, rowid).chats)
    ensures UpsertMessage(db, key, sender, content, rowid).chats.Keys == db.chats.Keys
    ensures forall k :: k in db.messages ==>
              k in UpsertMessage(db, key, sender, content, rowid).messages &&
              UpsertMessage(db, key, sender, content, rowid).messages[k].rowid == db.messages[k].rowid &&
              UpsertMessage(db, key, sender, content, rowid).messages[k].readAt == db.messages[k].readAt
    ensures key.chatJID in db.chats ==>
              content.ts <= UpsertMessage(db, key, sender, content, rowid).chats[key.chatJID].lastMessageAt
  {
  }

  /* ----- what each write leaves behind, field by field ----- */

  // A name given wins and an empty one keeps the old; the group flag is always the one given.
  lemma UpsertChatFields(db: Db, jid: string, name: string, isGroup: bool, at: int)
    ensures var db' := UpsertChat(db, jid, name, isGroup, at);
      && db' == db.(chats := db'.chats) && db'.chats.Keys == db.chats.Keys + {jid}
      && (forall j :: j in db.chats && j != jid ==> db'.chats[j] == db.chats[j])
      && db'.chats[jid].isGroup == isGroup
      && (name != "" ==> db'.chats[jid].name == name)
      && (name == "" && jid in db.chats ==> db'.chats[jid].name == db.chats[jid].name)
      && (jid in db.chats ==> db'.chats[jid].archived == db.chats[jid].archived)
      && (jid !in db.chats ==> db'.chats[jid] == Chat(name, isGroup, false, at))
      && (jid in db.chats && at <= db.chats[jid].lastMessageAt ==>
            db'.chats[jid].lastMessageAt == db.chats[jid].lastMessageAt)
      && (jid in db.chats && db.chats[jid].lastMessageAt < at ==> db'.chats[jid].lastMessageAt == at)
  {
  }

  // The row takes sender and content whole; every other message, and every other table but the chat's time, stays.
  lemma UpsertMessageFields(db: Db, key: Key, sender: string, content: Content, rowid: int)
    ensures var db' := UpsertMessage(db, key, sender, content, rowid);
      && db' == db.(chats := db'.chats, messages := db'.messages) && db'.messages.Keys == db.messages.Keys + {key}
      && (forall k :: k in db.messages && k != key ==> db'.messages[k] == db.messages[k])
      && db'.messages[key].senderJID == sender && db'.messages[key].content == content
      && (key !in db.messages ==> db'.messages[key].rowid == rowid && db'.messages[key].readAt == 0)
      && (key in db.messages ==>
            db'.messages[key].rowid == db.messages[key].rowid && db'.messages[key].readAt == db.messages[key].readAt)
      && (forall j :: j in db.chats && j != key.chatJID ==> db'.chats[j] == db.chats[j])
      && (key.chatJID in db.chats ==>
            db'.chats[key.chatJID] == db.chats[key.chatJID].(lastMessageAt := db'.chats[key.chatJID].lastMessageAt))
  {
  }

  // Each field on its own: one given wins, an empty one keeps the old.
  lemma UpsertContactFields(db: Db, jid: string, c: Contact)
    ensures var db' := UpsertContact(db, jid, c);
      && db' == db.(contacts := db'.contacts) && db'.contacts.Keys == db.contacts.Keys + {jid}
      && (forall j :: j in db.contacts && j != jid ==> db'.contacts[j] == db.contacts[j])
      && (jid !in db.contacts ==> db'.contacts[jid] == c)
      && (c.phone != "" ==> db'.contacts[jid].phone == c.phone)
      && (c.pushName != "" ==> db'.contacts[jid].pushName == c.pushName)
      && (c.fullName != "" ==> db'.contacts[jid].fullName == c.fullName)
      && (c.businessName != "" ==> db'.contacts[jid].businessName == c.businessName)
      && (jid in db.contacts && c.phone == "" ==> db'.contacts[jid].phone == db.contacts[jid].phone)
      && (jid in db.contacts && c.pushName == "" ==> db'.contacts[jid].pushName == db.contacts[jid].pushName)
      && (jid in db.contacts && c.fullName == "" ==> db'.contacts[jid].fullName == db.contacts[jid].fullName)
      && (jid in db.contacts && c.businessName == "" ==>
            db'.contacts[jid].businessName == db.contacts[jid].businessName)
  {
  }

  // The last pairing of an address wins; an empty side records nothing.
  lemma UpsertMappingLastWins(db: Db, lid: string, pn: string)
    ensures var db' := UpsertLIDMapping(db, lid, pn);
      && db' == db.(lidMap := db'.lidMap)
      && (|lid| > 0 && |pn| > 0 ==> db'.lidMap == db.lidMap[lid := pn])
      && (|lid| == 0 || |pn| == 0 ==> db' == db)
  {
  }

  // The ids named, in that chat and no other; times only move forward, and nothing else about a message changes.
  lemma MarkReadTouches(db: Db, chatJID: string, ids: seq<string>, readAt: int, k: Key)
    requires k in db.messages
    ensures var db' := MarkRead(db, chatJID, ids, readAt);
      && db' == db.(messages := db'.messages) && db'.messages.Keys == db.messages.Keys
      && db'.messages[k] == db.messages[k].(readAt := db'.messages[k].readAt)
      && (k.chatJID == chatJID && k.id in ids && db.messages[k].readAt < readAt ==> db'.messages[k].readAt == readAt)
      && (k.chatJID == chatJID && k.id in ids && readAt <= db.messages[k].readAt ==>
            db'.messages[k].readAt == db.messages[k].readAt)
      && (k.chatJID != chatJID || k.id !in ids ==> db'.messages[k] == db.messages[k])
  {
  }

  /* ----- display names ----- */

  function ContactName(c: Contact): string {
    Keep(c.fullName, Keep(c.pushName, c.businessName))
  }

  function NameOn(contacts: map<string, Contact>, jid: string): string {
    if jid in contacts then ContactName(contacts[jid]) else ""
  }

  // The contact on the address itself, then the one on its mapped phone address.
  function ContactChain(db: Db, jid: string): string {
    Keep(NameOn(db.contacts, jid), if jid in db.lidMap then NameOn(db.contacts, db.lidMap[jid]) else "")
  }

  // A mapped phone address still beats the raw one.
  function DisplayName(db: Db, jid: string, fallback: string): string {
    Keep(ContactChain(db, jid), if jid in db.lidMap then db.lidMap[jid] else fallback)
  }

  function SenderName(db: Db, jid: string): string {
    DisplayName(db, jid, jid)
  }

  function ChatName(db: Db, jid: string): string
    requires jid in db.chats
  {
    Keep(db.chats[jid].name, DisplayName(db, jid, ""))
  }

  // The first non-empty of the contact's own full, push and business name.
  lemma ContactNameOrder(c: Contact)
    ensures c.fullName != "" ==> ContactName(c) == c.fullName
    ensures c.fullName == "" && c.pushName != "" ==> ContactName(c) == c.pushName
    ensures c.fullName == "" && c.pushName == "" ==> ContactName(c) == c.businessName
  {
  }

  // A contact with a name stands on the address.
  predicate HasName(db: Db, jid: string) {
    jid in db.contacts &&
    (db.contacts[jid].fullName != "" || db.contacts[jid].pushName != "" || db.contacts[jid].businessName != "")
  }

  // A name on the address itself, then one on the mapped phone address, then that address, then the raw one.
  lemma SenderNameOrder(db: Db, jid: string)
    ensures var own := HasName(db, jid);
            var mapped := jid in db.lidMap && HasName(db, db.lidMap[jid]);
      && (own ==> SenderName(db, jid) == ContactName(db.contacts[jid]))
      && (!own && mapped ==> SenderName(db, jid) == ContactName(db.contacts[db.lidMap[jid]]))
      && (!own && !mapped && jid in db.lidMap ==> SenderName(db, jid) == db.lidMap[jid])
      && (!own && !mapped && jid !in db.lidMap ==> SenderName(db, jid) == jid)
  {
  }

  // A chat shows its stored name first, and the same chain after it, with nothing at its end.
  lemma ChatNameOrder(db: Db, jid: string)
    requires jid in db.chats
    ensures db.chats[jid].name != "" ==> ChatName(db, jid) == db.chats[jid].name
    ensures db.chats[jid].name == "" && (HasName(db, jid) || jid in db.lidMap) ==>
              ChatName(db, jid) == SenderName(db, jid)
    ensures db.chats[jid].name == "" && !HasName(db, jid) && jid !in db.lidMap ==> ChatName(db, jid) == ""
  {
  }
}
