/** What the whole fold promises: one person becomes one identity, nothing is
lost, a second run does nothing, and folding late equals resolving early. */
module FoldTheorems {
  import opened Tables
  import opened Fold

  predicate Resolvable(r: Resolver, jid: string) {
    LikeLid(jid) && r(jid) != ""
  }

  // No address r could resolve is left in any table.
  ghost predicate Canonical(r: Resolver, db: Db) {
    && (forall j :: j in db.chats ==> !Resolvable(r, j))
    && (forall k :: k in db.messages ==> !Resolvable(r, k.chatJID) && !Resolvable(r, db.messages[k].senderJID))
    && (forall j :: j in db.contacts ==> !Resolvable(r, j))
    && (forall id :: id in db.calls ==> !Resolvable(r, db.calls[id].peerJID))
  }

  lemma CanonIsFixed(r: Resolver, jid: string)
    requires Sound(r)
    ensures !Resolvable(r, Canon(r, jid)) && Canon(r, Canon(r, jid)) == Canon(r, jid)
    ensures !Resolvable(r, jid) <==> Canon(r, jid) == jid
  {
  }

  lemma ScannedSendersRenameToCanon(r: Resolver, list: seq<string>, m: map<Key, Message>)
    requires Sound(r) && ScansSenders(list, m)
    ensures RenameSenders(m, r, list) == map k | k in m :: m[k].(senderJID := Canon(r, m[k].senderJID))
  {
    forall k | k in m
      ensures Renamed(r, list, m[k].senderJID) == Canon(r, m[k].senderJID)
    {
    }
  }

  lemma ScannedPeersRenameToCanon(r: Resolver, list: seq<string>, calls: map<string, Call>)
    requires Sound(r) && ScansPeers(list, calls)
    ensures RenamePeers(calls, r, list) == map id | id in calls :: calls[id].(peerJID := Canon(r, calls[id].peerJID))
  {
    forall id | id in calls
      ensures Renamed(r, list, calls[id].peerJID) == Canon(r, calls[id].peerJID)
    {
    }
  }

  // The four passes put together: what each table is afterwards.
  lemma FoldByTable(db: Db, r: Resolver, scan: Scan)
    requires Sound(r) && Scans(db, r, scan)
    ensures var moved, db' := FoldChats(Folded(db, NOTHING), r, scan.chats).db, FoldLIDs(db, r, scan).db;
      && db'.chats == moved.chats
      && db'.messages == (map k | k in moved.messages ::
           moved.messages[k].(senderJID := Canon(r, moved.messages[k].senderJID)))
      && ContactPassKeeps(r, scan.contacts, db.contacts, db'.contacts)
      && db'.calls == (map id | id in db.calls :: db.calls[id].(peerJID := Canon(r, db.calls[id].peerJID)))
  {
    ChatsPass(r, r, Folded(db, NOTHING), scan.chats, map[]);
    var a := FoldChats(Folded(db, NOTHING), r, scan.chats);
    SendersPass(a, r, scan.senders);
    ScannedSendersRenameToCanon(r, scan.senders, a.db.messages);
    var b := FoldSenders(a, r, scan.senders);
    ContactsPass(b, r, scan.contacts);
    var c := FoldContacts(b, r, scan.contacts);
    PeersPass(c, r, scan.peers);
    ScannedPeersRenameToCanon(r, scan.peers, db.calls);
  }

  lemma NoResolvableMessageLeft(db: Db, r: Resolver, scan: Scan)
    requires Sound(r) && HasChatRows(db) && Scans(db, r, scan)
    ensures var moved := FoldChats(Folded(db, NOTHING), r, scan.chats).db;
      && (forall j :: j in moved.chats ==> !Resolvable(r, j))
      && (forall k :: k in moved.messages ==> !Resolvable(r, k.chatJID))
  {
    ChatsPass(r, r, Folded(db, NOTHING), scan.chats, map[]);
    var moved := FoldChats(Folded(db, NOTHING), r, scan.chats).db;
    forall j | j in moved.chats
      ensures !Resolvable(r, j)
    {
      assert LikeLid(j) ==> j in db.chats && LidChat(j, db.chats[j]) in scan.chats;
    }
  }

  // Afterwards nothing resolvable is left, and there is one message for every (canonical chat, id).
  lemma FoldConservesMessages(db: Db, r: Resolver, scan: Scan)
    requires Sound(r) && HasChatRows(db) && Scans(db, r, scan)
    ensures var db' := FoldLIDs(db, r, scan).db;
      db'.messages.Keys == ViewKeys(r, db.messages) && Canonical(r, db') && HasChatRows(db')
  {
    MovedIsConserved(db, r, scan);
    FoldByTable(db, r, scan);
    NoResolvableRowLeft(db, r, scan, FoldChats(Folded(db, NOTHING), r, scan.chats).db, FoldLIDs(db, r, scan).db);
  }

  // The chat pass alone puts one message under every canonical key there was.
  lemma MovedIsConserved(db: Db, r: Resolver, scan: Scan)
    requires Sound(r) && HasChatRows(db) && Scans(db, r, scan)
    ensures var moved := FoldChats(Folded(db, NOTHING), r, scan.chats).db;
      && moved.messages.Keys == ViewKeys(r, db.messages) && HasChatRows(moved)
      && (forall j :: j in moved.chats ==> !Resolvable(r, j))
      && (forall k :: k in moved.messages ==> !Resolvable(r, k.chatJID))
  {
    NoResolvableMessageLeft(db, r, scan);
    ChatsPass(r, r, Folded(db, NOTHING), scan.chats, map[]);
    FixedKeysAreTheView(r, FoldChats(Folded(db, NOTHING), r, scan.chats).db.messages);
  }

  lemma FixedKeysAreTheView(r: Resolver, m: map<Key, Message>)
    requires forall k :: k in m ==> !Resolvable(r, k.chatJID)
    ensures ViewKeys(r, m) == m.Keys
  {
    assert forall k :: k in m ==> CanonKey(r, k) == k;
  }

  // Table by table, in terms of what the passes did to each.
  lemma NoResolvableRowLeft(db: Db, r: Resolver, scan: Scan, moved: Db, db': Db)
    requires Sound(r) && ScansContacts(scan.contacts, db.contacts) && db'.chats == moved.chats
    requires (forall j :: j in moved.chats ==> !Resolvable(r, j))
    requires (forall k :: k in moved.messages ==> !Resolvable(r, k.chatJID))
    requires db'.messages == map k | k in moved.messages ::
               moved.messages[k].(senderJID := Canon(r, moved.messages[k].senderJID))
    requires ContactPassKeeps(r, scan.contacts, db.contacts, db'.contacts)
    requires db'.calls == map id | id in db.calls :: db.calls[id].(peerJID := Canon(r, db.calls[id].peerJID))
    ensures Canonical(r, db')
  {
    forall k | k in moved.messages
      ensures !Resolvable(r, db'.messages[k].senderJID)
    {
      CanonIsFixed(r, moved.messages[k].senderJID);
    }
    forall id | id in db'.calls
      ensures !Resolvable(r, db'.calls[id].peerJID)
    {
      CanonIsFixed(r, db.calls[id].peerJID);
    }
    forall j | j in db'.contacts
      ensures !Resolvable(r, j)
    {
      assert LikeLid(j) ==> j in db.contacts && LidContact(j, db.contacts[j]) in scan.contacts;
    }
  }

  lemma RenamedCopies(r: Resolver, m: map<Key, Message>, moved: map<Key, Message>)
    requires CopiesOf(r, m, moved) && forall k' :: k' in moved ==> CanonKey(r, k') == k'
    ensures forall k' :: k' in moved ==>
              exists k :: k in m && CanonKey(r, k) == k' &&
                          moved[k'].(senderJID := Canon(r, moved[k'].senderJID)) ==
                          m[k].(senderJID := Canon(r, m[k].senderJID))
  {
  }

  // A message already keyed on a phone address wins over any other copy, and every stored row
  // is some copy of its message with only the sender's address rewritten.
  lemma FoldKeepsRows(db: Db, r: Resolver, scan: Scan)
    requires Sound(r) && HasChatRows(db) && Scans(db, r, scan)
    ensures var m, m' := db.messages, FoldLIDs(db, r, scan).db.messages;
      && (forall k :: k in m && !Resolvable(r, k.chatJID) ==>
            k in m' && m'[k] == m[k].(senderJID := Canon(r, m[k].senderJID)))
      && (forall k' :: k' in m' ==>
            exists k :: k in m && CanonKey(r, k) == k' && m'[k'] == m[k].(senderJID := Canon(r, m[k].senderJID)))
  {
    var m, m' := db.messages, FoldLIDs(db, r, scan).db.messages;
    var moved := FoldChats(Folded(db, NOTHING), r, scan.chats).db.messages;
    FoldByTable(db, r, scan);
    NoResolvableMessageLeft(db, r, scan);
    ChatsPassCopies(r, Folded(db, NOTHING), scan.chats);
    assert forall k' :: k' in moved ==> CanonKey(r, k') == k';
    RenamedCopies(r, m, moved);
  }

  // Each canonical chat's last_message_at is attained in its class and exceeded by none of it.
  ghost predicate LatestOfClass(r: Resolver, was: map<string, Chat>, now: map<string, Chat>) {
    && (forall j :: j in was ==> Canon(r, j) in now && was[j].lastMessageAt <= now[Canon(r, j)].lastMessageAt)
    && (forall p :: p in now ==>
          exists j :: j in was && Canon(r, j) == p && was[j].lastMessageAt == now[p].lastMessageAt)
  }

  lemma SameReachIsLatest(r: Resolver, was: map<string, Chat>, now: map<string, Chat>)
    requires forall p, t :: Reaches(r, now, p, t) <==> Reaches(r, was, p, t)
    requires forall p :: p in now ==> Canon(r, p) == p
    ensures LatestOfClass(r, was, now)
  {
    forall j | j in was
      ensures Canon(r, j) in now && was[j].lastMessageAt <= now[Canon(r, j)].lastMessageAt
    {
      assert Reaches(r, was, Canon(r, j), was[j].lastMessageAt);
      var j' :| j' in now && Canon(r, j') == Canon(r, j) && was[j].lastMessageAt <= now[j'].lastMessageAt;
    }
    forall p | p in now
      ensures exists j :: j in was && Canon(r, j) == p && was[j].lastMessageAt == now[p].lastMessageAt
    {
      assert Reaches(r, now, p, now[p].lastMessageAt);
      var j :| j in was && Canon(r, j) == p && now[p].lastMessageAt <= was[j].lastMessageAt;
      assert was[j].lastMessageAt <= now[Canon(r, j)].lastMessageAt;
    }
  }

  // One chat row for every canonical address, with the latest time of its class.
  lemma FoldMergesChats(db: Db, r: Resolver, scan: Scan)
    requires Sound(r) && HasChatRows(db) && Scans(db, r, scan)
    ensures LatestOfClass(r, db.chats, FoldLIDs(db, r, scan).db.chats)
  {
    var moved := FoldChats(Folded(db, NOTHING), r, scan.chats).db;
    FoldByTable(db, r, scan);
    NoResolvableMessageLeft(db, r, scan);
    ChatsPass(r, r, Folded(db, NOTHING), scan.chats, map[]);
    SameReachIsLatest(r, db.chats, moved.chats);
  }

  // No chat's last_message_at falls behind a message in it.
  lemma FoldKeepsBounds(db: Db, r: Resolver, scan: Scan)
    requires Sound(r) && Bounds(db) && Scans(db, r, scan)
    ensures Bounds(FoldLIDs(db, r, scan).db)
  {
    var moved := FoldChats(Folded(db, NOTHING), r, scan.chats).db;
    FoldByTable(db, r, scan);
    ChatsPass(r, r, Folded(db, NOTHING), scan.chats, map[]);
    assert Bounds(moved);
  }

  /* ----- a second run ----- */

  lemma {:induction false} ChatsNothing(f: Folded, r: Resolver, list: seq<LidChat>)
    requires forall c :: c in list ==> r(c.jid) == ""
    ensures FoldChats(f, r, list) == f
  {
    if list != [] {
      assert list[|list| - 1] in list;
      ChatsNothing(f, r, list[..|list| - 1]);
    }
  }

  lemma {:induction false} SendersNothing(f: Folded, r: Resolver, list: seq<string>)
    requires forall s :: s in list ==> r(BareLID(s)) == ""
    ensures FoldSenders(f, r, list) == f
  {
    if list != [] {
      assert list[|list| - 1] in list;
      SendersNothing(f, r, list[..|list| - 1]);
    }
  }

  lemma {:induction false} ContactsNothing(f: Folded, r: Resolver, list: seq<LidContact>)
    requires forall c :: c in list ==> r(BareLID(c.jid)) == ""
    ensures FoldContacts(f, r, list) == f
  {
    if list != [] {
      assert list[|list| - 1] in list;
      ContactsNothing(f, r, list[..|list| - 1]);
    }
  }

  lemma {:induction false} PeersNothing(f: Folded, r: Resolver, list: seq<string>)
    requires forall p :: p in list ==> r(BareLID(p)) == ""
    ensures FoldPeers(f, r, list) == f
  {
    if list != [] {
      assert list[|list| - 1] in list;
      PeersNothing(f, r, list[..|list| - 1]);
    }
  }

  // Whatever the scans of a canonical store return, the resolver answers none of it.
  lemma CanonicalResolvesNothing(db: Db, r: Resolver, scan: Scan)
    requires Sound(r) && Canonical(r, db) && Scans(db, r, scan)
    ensures forall c :: c in scan.chats ==> r(c.jid) == ""
    ensures forall s :: s in scan.senders ==> r(BareLID(s)) == ""
    ensures forall c :: c in scan.contacts ==> r(BareLID(c.jid)) == ""
    ensures forall p :: p in scan.peers ==> r(BareLID(p)) == ""
  {
    ScannedChatsUnresolved(r, scan.chats, db.chats);
    ChatsNothing(Folded(db, NOTHING), r, scan.chats);
    ScannedSendersUnresolved(r, scan.senders, db.messages);
    ScannedContactsUnresolved(r, scan.contacts, db.contacts);
    ScannedPeersUnresolved(r, scan.peers, db.calls);
  }

  lemma ScannedChatsUnresolved(r: Resolver, list: seq<LidChat>, chats: map<string, Chat>)
    requires ScansChats(list, chats) && forall j :: j in chats ==> !Resolvable(r, j)
    ensures forall c :: c in list ==> r(c.jid) == ""
  {
  }

  lemma ScannedSendersUnresolved(r: Resolver, list: seq<string>, m: map<Key, Message>)
    requires Sound(r) && ScansSenders(list, m) && forall k :: k in m ==> !Resolvable(r, m[k].senderJID)
    ensures forall s :: s in list ==> r(BareLID(s)) == ""
  {
  }

  lemma ScannedContactsUnresolved(r: Resolver, list: seq<LidContact>, contacts: map<string, Contact>)
    requires Sound(r) && ScansContacts(list, contacts) && forall j :: j in contacts ==> !Resolvable(r, j)
    ensures forall c :: c in list ==> r(BareLID(c.jid)) == ""
  {
  }

  lemma ScannedPeersUnresolved(r: Resolver, list: seq<string>, calls: map<string, Call>)
    requires Sound(r) && ScansPeers(list, calls) && forall id :: id in calls ==> !Resolvable(r, calls[id].peerJID)
    ensures forall p :: p in list ==> r(BareLID(p)) == ""
  {
  }

  lemma CanonicalFoldsToItself(db: Db, r: Resolver, scan: Scan)
    requires Sound(r) && Canonical(r, db) && Scans(db, r, scan)
    ensures FoldLIDs(db, r, scan) == Folded(db, NOTHING)
  {
    CanonicalResolvesNothing(db, r, scan);
    ChatsNothing(Folded(db, NOTHING), r, scan.chats);
    SendersNothing(Folded(db, NOTHING), r, scan.senders);
    ContactsNothing(Folded(db, NOTHING), r, scan.contacts);
    PeersNothing(Folded(db, NOTHING), r, scan.peers);
  }

  // The second run moves nothing and reports zero, whatever order it scans in.
  lemma FoldIsIdempotent(db: Db, r: Resolver, scan: Scan, again: Scan)
    requires Sound(r) && HasChatRows(db) && Scans(db, r, scan) && Scans(FoldLIDs(db, r, scan).db, r, again)
    ensures FoldLIDs(FoldLIDs(db, r, scan).db, r, again) == Folded(FoldLIDs(db, r, scan).db, NOTHING)
    ensures FoldLIDs(FoldLIDs(db, r, scan).db, r, again).stats.Total() == 0
  {
    FoldConservesMessages(db, r, scan);
    CanonicalFoldsToItself(FoldLIDs(db, r, scan).db, r, again);
  }

  /* ----- folding late is resolving early ----- */

  // One delivery; a later fold works with whatever pairings are known by then.
  datatype Event =
    | Seen(jid: string, name: string, isGroup: bool, at: int)
    | Received(key: Key, sender: string, chatName: string, isGroup: bool, content: Content, rowid: int)
    | FoldNow(known: Resolver, scan: Scan)

  function Ingest(db: Db, e: Event): Db {
    match e
    case Seen(jid, name, isGroup, at) => UpsertChat(db, jid, name, isGroup, at)
    case Received(key, sender, chatName, isGroup, content, rowid) =>
      Receive(db, key, sender, chatName, isGroup, content, rowid)
    case FoldNow(known, scan) => FoldLIDs(db, known, scan).db
  }

  // The same delivery with every address resolved before it is written; no fold is needed.
  function IngestResolved(r: Resolver, db: Db, e: Event): Db {
    match e
    case Seen(jid, name, isGroup, at) => Ingest(db, Seen(Canon(r, jid), name, isGroup, at))
    case Received(key, sender, chatName, isGroup, content, rowid) =>
      Ingest(db, Received(CanonKey(r, key), Canon(r, sender), chatName, isGroup, content, rowid))
    case FoldNow(_, _) => db
  }

  function Late(es: seq<Event>): Db {
    if es == [] then EMPTY else Ingest(Late(es[..|es| - 1]), es[|es| - 1])
  }

  function Early(r: Resolver, es: seq<Event>): Db {
    if es == [] then EMPTY else IngestResolved(r, Early(r, es[..|es| - 1]), es[|es| - 1])
  }

  // Repeat deliveries of one message agree, and the folds along the way know less than r but nothing else.
  ghost predicate Consistent(r: Resolver, es: seq<Event>, said: map<Key, Payload>) {
    forall i :: 0 <= i < |es| ==> match es[i]
      case Seen(_, _, _, _) => true
      case Received(key, sender, _, _, content, _) =>
        CanonKey(r, key) in said && said[CanonKey(r, key)] == Payload(Canon(r, sender), content)
      case FoldNow(known, scan) =>
        Sound(known) && Below(known, r) && Scans(Late(es[..i]), known, scan)
  }

  ghost predicate SameView(r: Resolver, a: Db, b: Db) {
    && ViewKeys(r, a.messages) == ViewKeys(r, b.messages)
    && (forall p, t :: Reaches(r, a.chats, p, t) <==> Reaches(r, b.chats, p, t))
  }

  lemma UpsertReach(r: Resolver, db: Db, jid: string, name: string, isGroup: bool, at: int)
    ensures forall p, t :: Reaches(r, UpsertChat(db, jid, name, isGroup, at).chats, p, t) <==>
              Reaches(r, db.chats, p, t) || (p == Canon(r, jid) && t <= at)
  {
  }

  // The bump after the chat upsert adds nothing: the row already carries the message's time.
  lemma ReceiveView(r: Resolver, db: Db, e: Event)
    requires e.Received?
    ensures ViewKeys(r, Ingest(db, e).messages) == ViewKeys(r, db.messages) + {CanonKey(r, e.key)}
    ensures Ingest(db, e).chats == UpsertChat(db, e.key.chatJID, e.chatName, e.isGroup, e.content.ts).chats
  {
  }

  // Both stores after the same deliveries: one person's rows may still be scattered in the late one.
  ghost predicate InStep(r: Resolver, late: Db, early: Db, said: map<Key, Payload>) {
    && SameView(r, late, early)
    && Says(r, late.messages, said) && Says(r, early.messages, said)
    && HasChatRows(late) && HasChatRows(early)
    && ResolvedFirst(r, early)
  }

  // Every address was canonical when it was written.
  ghost predicate ResolvedFirst(r: Resolver, db: Db) {
    && (forall j :: j in db.chats ==> Canon(r, j) == j)
    && (forall k :: k in db.messages ==>
          CanonKey(r, k) == k && Canon(r, db.messages[k].senderJID) == db.messages[k].senderJID)
  }

  lemma FoldKeepsView(r0: Resolver, r: Resolver, db: Db, scan: Scan, said: map<Key, Payload>)
    requires Sound(r0) && Sound(r) && Below(r0, r) && Scans(db, r0, scan)
    requires HasChatRows(db) && Says(r, db.messages, said)
    ensures var db' := FoldLIDs(db, r0, scan).db;
            SameView(r, db, db') && HasChatRows(db') && Says(r, db'.messages, said)
  {
    FoldByTable(db, r0, scan);
    ChatsPass(r0, r, Folded(db, NOTHING), scan.chats, said);
    RenamingKeepsView(r0, r, FoldChats(Folded(db, NOTHING), r0, scan.chats).db.messages, said);
  }

  lemma RenamingKeepsView(r0: Resolver, r: Resolver, m: map<Key, Message>, said: map<Key, Payload>)
    requires Sound(r0) && Sound(r) && Below(r0, r) && Says(r, m, said)
    ensures var m' := map k | k in m :: m[k].(senderJID := Canon(r0, m[k].senderJID));
            ViewKeys(r, m') == ViewKeys(r, m) && Says(r, m', said)
  {
    forall k | k in m
      ensures Canon(r, Canon(r0, m[k].senderJID)) == Canon(r, m[k].senderJID)
    {
      CanonIsFixed(r0, m[k].senderJID);
    }
  }

  lemma SeenStaysInStep(r: Resolver, late: Db, early: Db, e: Event, said: map<Key, Payload>)
    requires Sound(r) && e.Seen? && InStep(r, late, early, said)
    ensures InStep(r, Ingest(late, e), IngestResolved(r, early, e), said)
  {
    CanonIsFixed(r, e.jid);
    UpsertReach(r, late, e.jid, e.name, e.isGroup, e.at);
    UpsertReach(r, early, Canon(r, e.jid), e.name, e.isGroup, e.at);
  }

  // Writing what `said` says of a message keeps the store true to it.
  lemma ReceiveSays(r: Resolver, db: Db, e: Event, said: map<Key, Payload>)
    requires e.Received? && Says(r, db.messages, said) && HasChatRows(db)
    requires CanonKey(r, e.key) in said && said[CanonKey(r, e.key)] == Payload(Canon(r, e.sender), e.content)
    ensures Says(r, Ingest(db, e).messages, said) && HasChatRows(Ingest(db, e))
    ensures forall k :: k in Ingest(db, e).messages ==>
              (k in db.messages && Ingest(db, e).messages[k] == db.messages[k]) ||
              (k == e.key && Ingest(db, e).messages[k].senderJID == e.sender)
  {
    var m := Ingest(db, e).messages;
    forall k | k in m
      ensures k == e.key || (k in db.messages && m[k] == db.messages[k])
      ensures k == e.key ==> m[k].senderJID == e.sender && m[k].content == e.content
    {
    }
    ReceiveView(r, db, e);
  }

  lemma ReceivedStaysInStep(r: Resolver, late: Db, early: Db, e: Event, said: map<Key, Payload>)
    requires Sound(r) && e.Received? && InStep(r, late, early, said)
    requires CanonKey(r, e.key) in said && said[CanonKey(r, e.key)] == Payload(Canon(r, e.sender), e.content)
    ensures InStep(r, Ingest(late, e), IngestResolved(r, early, e), said)
  {
    var e' := Received(CanonKey(r, e.key), Canon(r, e.sender), e.chatName, e.isGroup, e.content, e.rowid);
    CanonIsFixed(r, e.key.chatJID);
    CanonIsFixed(r, e.sender);
    ReceiveSays(r, late, e, said);
    ReceiveSays(r, early, e', said);
    ReceivedSameView(r, late, early, e, e');
    ReceiveStaysResolved(r, early, e', said);
  }

  lemma ReceivedSameView(r: Resolver, late: Db, early: Db, e: Event, e': Event)
    requires SameView(r, late, early) && e.Received? && e'.Received? && e'.content.ts == e.content.ts
    requires CanonKey(r, e'.key) == CanonKey(r, e.key)
    ensures SameView(r, Ingest(late, e), Ingest(early, e'))
  {
    ReceiveView(r, late, e);
    ReceiveView(r, early, e');
    UpsertReach(r, late, e.key.chatJID, e.chatName, e.isGroup, e.content.ts);
    UpsertReach(r, early, e'.key.chatJID, e'.chatName, e'.isGroup, e'.content.ts);
  }

  lemma ReceiveStaysResolved(r: Resolver, db: Db, e: Event, said: map<Key, Payload>)
    requires e.Received? && ResolvedFirst(r, db) && CanonKey(r, e.key) == e.key && Canon(r, e.sender) == e.sender
    requires Says(r, db.messages, said) && HasChatRows(db)
    requires CanonKey(r, e.key) in said && said[CanonKey(r, e.key)] == Payload(Canon(r, e.sender), e.content)
    ensures ResolvedFirst(r, Ingest(db, e))
  {
    ReceiveSays(r, db, e, said);
    ReceiveView(r, db, e);
  }

  lemma FoldStaysInStep(r0: Resolver, r: Resolver, late: Db, early: Db, scan: Scan, said: map<Key, Payload>)
    requires Sound(r0) && Sound(r) && Below(r0, r) && Scans(late, r0, scan) && InStep(r, late, early, said)
    ensures InStep(r, FoldLIDs(late, r0, scan).db, early, said)
  {
    FoldKeepsView(r0, r, late, scan, said);
  }

  lemma {:induction false} StaysInStep(r: Resolver, es: seq<Event>, said: map<Key, Payload>)
    requires Sound(r) && Consistent(r, es, said)
    ensures InStep(r, Late(es), Early(r, es), said)
  {
    if es != [] {
      var before, e := es[..|es| - 1], es[|es| - 1];
      assert forall i :: 0 <= i < |before| ==> es[i] == before[i] && es[..i] == before[..i];
      StaysInStep(r, before, said);
      match e
      case Seen(_, _, _, _) => SeenStaysInStep(r, Late(before), Early(r, before), e, said);
      case Received(_, _, _, _, _, _) => ReceivedStaysInStep(r, Late(before), Early(r, before), e, said);
      case FoldNow(known, scan) => FoldStaysInStep(known, r, Late(before), Early(r, before), scan, said);
    }
  }

  // Two canonical stores with one view hold the same messages and the same last times.
  lemma CanonicalViewsAgree(r: Resolver, a: Db, b: Db, said: map<Key, Payload>)
    requires Sound(r) && SameView(r, a, b) && Says(r, a.messages, said) && Says(r, b.messages, said)
    requires Canonical(r, a)
    requires forall j :: j in b.chats ==> Canon(r, j) == j
    requires forall k :: k in b.messages ==>
               CanonKey(r, k) == k && Canon(r, b.messages[k].senderJID) == b.messages[k].senderJID
    ensures a.messages.Keys == b.messages.Keys && a.chats.Keys == b.chats.Keys
    ensures forall k :: k in a.messages ==>
              a.messages[k].senderJID == b.messages[k].senderJID && a.messages[k].content == b.messages[k].content
    ensures forall j :: j in a.chats ==> a.chats[j].lastMessageAt == b.chats[j].lastMessageAt
  {
    assert forall k :: k in a.messages ==> CanonKey(r, k) == k;
    assert ViewKeys(r, a.messages) == a.messages.Keys && ViewKeys(r, b.messages) == b.messages.Keys;
    forall k | k in a.messages
      ensures a.messages[k].senderJID == b.messages[k].senderJID && a.messages[k].content == b.messages[k].content
    {
      assert said[k] == CanonPayload(r, a.messages[k]) == CanonPayload(r, b.messages[k]);
    }
    forall j | j in a.chats
      ensures j in b.chats && a.chats[j].lastMessageAt <= b.chats[j].lastMessageAt
    {
      assert Reaches(r, a.chats, j, a.chats[j].lastMessageAt);
      var j' :| j' in b.chats && Canon(r, j') == j && a.chats[j].lastMessageAt <= b.chats[j'].lastMessageAt;
    }
    forall j | j in b.chats
      ensures j in a.chats && b.chats[j].lastMessageAt <= a.chats[j].lastMessageAt
    {
      assert Reaches(r, b.chats, j, b.chats[j].lastMessageAt);
      var j' :| j' in a.chats && Canon(r, j') == j && b.chats[j].lastMessageAt <= a.chats[j'].lastMessageAt;
    }
  }

  lemma InStepFoldsAlike(r: Resolver, late: Db, early: Db, scan: Scan, said: map<Key, Payload>)
    requires Sound(r) && InStep(r, late, early, said) && Scans(late, r, scan)
    ensures var folded := FoldLIDs(late, r, scan).db;
      && folded.messages.Keys == early.messages.Keys && folded.chats.Keys == early.chats.Keys
      && (forall k :: k in folded.messages ==>
            folded.messages[k].senderJID == early.messages[k].senderJID &&
            folded.messages[k].content == early.messages[k].content)
      && (forall j :: j in folded.chats ==> folded.chats[j].lastMessageAt == early.chats[j].lastMessageAt)
  {
    FoldConservesMessages(late, r, scan);
    FoldKeepsView(r, r, late, scan, said);
    CanonicalViewsAgree(r, FoldLIDs(late, r, scan).db, early, said);
  }

  // Whenever the pairings become known, and however many folds ran on the way, a final fold leaves the same
  // messages and the same last times as if every address had been resolved before it was written.
  lemma FoldLateEqualsResolveEarly(r: Resolver, es: seq<Event>, said: map<Key, Payload>, scan: Scan)
    requires Sound(r) && Consistent(r, es, said) && Scans(Late(es), r, scan)
    ensures var late, early := FoldLIDs(Late(es), r, scan).db, Early(r, es);
      && late.messages.Keys == early.messages.Keys && late.chats.Keys == early.chats.Keys
      && (forall k :: k in late.messages ==>
            late.messages[k].senderJID == early.messages[k].senderJID &&
            late.messages[k].content == early.messages[k].content)
      && (forall j :: j in late.chats ==> late.chats[j].lastMessageAt == early.chats[j].lastMessageAt)
  {
    StaysInStep(r, es, said);
    InStepFoldsAlike(r, Late(es), Early(r, es), scan, said);
  }

  /* ----- names ----- */

  // Every recorded pairing is the resolver's, and points at a phone address.
  ghost predicate MapAgrees(r: Resolver, lidMap: map<string, string>) {
    forall l :: l in lidMap ==> !LikeLid(lidMap[l]) && (Resolvable(r, l) ==> lidMap[l] == r(l))
  }

  // A pass only adds pairings the resolver answered with.
  ghost predicate MapGrows(r: Resolver, was: map<string, string>, now: map<string, string>) {
    && (forall l :: l in was && r(l) == "" ==> l in now && now[l] == was[l])
    && (forall l :: l in now ==> (l in was && now[l] == was[l]) || (r(l) != "" && now[l] == r(l)))
  }

  lemma {:induction false} ChatsPassMap(f: Folded, r: Resolver, list: seq<LidChat>)
    ensures MapGrows(r, f.db.lidMap, FoldChats(f, r, list).db.lidMap)
  {
    if list != [] {
      ChatsPassMap(f, r, list[..|list| - 1]);
    }
  }

  lemma {:induction false} SendersPassMap(f: Folded, r: Resolver, list: seq<string>)
    requires Sound(r)
    ensures MapGrows(r, f.db.lidMap, FoldSenders(f, r, list).db.lidMap)
  {
    if list != [] {
      SendersPassMap(f, r, list[..|list| - 1]);
      var s := list[|list| - 1];
      assert r(BareLID(BareLID(s))) == r(BareLID(s)) == r(s);
    }
  }

  lemma SendersKeepContacts(db: Db, r: Resolver, scan: Scan)
    requires Sound(r) && Scans(db, r, scan)
    ensures FoldSenders(FoldChats(Folded(db, NOTHING), r, scan.chats), r, scan.senders).db.contacts == db.contacts
    ensures FoldSenders(FoldChats(Folded(db, NOTHING), r, scan.chats), r, scan.senders).db.calls == db.calls
  {
    ChatsPass(r, r, Folded(db, NOTHING), scan.chats, map[]);
    SendersPass(FoldChats(Folded(db, NOTHING), r, scan.chats), r, scan.senders);
  }

  lemma FoldMapGrows(db: Db, r: Resolver, scan: Scan)
    requires Sound(r) && Scans(db, r, scan)
    ensures MapGrows(r, db.lidMap, FoldLIDs(db, r, scan).db.lidMap)
  {
    var a := FoldChats(Folded(db, NOTHING), r, scan.chats);
    var b := FoldSenders(a, r, scan.senders);
    ChatsPassMap(Folded(db, NOTHING), r, scan.chats);
    SendersPassMap(a, r, scan.senders);
    ContactsPass(b, r, scan.contacts) by {
      ChatsPass(r, r, Folded(db, NOTHING), scan.chats, map[]);
      SendersPass(a, r, scan.senders);
    }
    PeersPass(FoldContacts(b, r, scan.contacts), r, scan.peers);
  }

  /* ----- which pairings are recorded ----- */

  // The fold used the pairing of l for a chat or for a sender, in either form of the sender's address.
  ghost predicate UsedForMessages(r: Resolver, chats: map<string, Chat>, moved: map<Key, Message>, l: string) {
    (l in chats && Resolvable(r, l)) || UsedForSender(r, moved, l)
  }

  ghost predicate UsedForSender(r: Resolver, m: map<Key, Message>, l: string) {
    exists k :: k in m && Resolvable(r, m[k].senderJID) && (l == m[k].senderJID || l == BareLID(m[k].senderJID))
  }

  // The passes recorded l while working through their lists.
  ghost predicate ChatListed(r: Resolver, list: seq<LidChat>, l: string) {
    exists c :: c in list && r(c.jid) != "" && c.jid == l
  }

  ghost predicate SenderListed(r: Resolver, list: seq<string>, l: string) {
    exists s :: s in list && r(BareLID(s)) != "" && (l == s || l == BareLID(s))
  }

  lemma {:induction false} ChatsPassRecords(f: Folded, r: Resolver, list: seq<LidChat>)
    ensures forall l :: l in FoldChats(f, r, list).db.lidMap <==>
              l in f.db.lidMap || ChatListed(r, list, l)
  {
    if list != [] {
      var before, c := list[..|list| - 1], list[|list| - 1];
      assert list == before + [c];
      ChatsPassRecords(f, r, before);
    }
  }

  lemma {:induction false} SendersPassRecords(f: Folded, r: Resolver, list: seq<string>)
    ensures forall l :: l in FoldSenders(f, r, list).db.lidMap <==>
              l in f.db.lidMap || SenderListed(r, list, l)
  {
    if list != [] {
      var before, s := list[..|list| - 1], list[|list| - 1];
      assert list == before + [s];
      SendersPassRecords(f, r, before);
    }
  }

  lemma FoldedMapIsSendersMap(db: Db, r: Resolver, scan: Scan)
    requires Sound(r) && Scans(db, r, scan)
    ensures FoldLIDs(db, r, scan).db.lidMap ==
            FoldSenders(FoldChats(Folded(db, NOTHING), r, scan.chats), r, scan.senders).db.lidMap
  {
    var a := FoldChats(Folded(db, NOTHING), r, scan.chats);
    var b := FoldSenders(a, r, scan.senders);
    ContactsPass(b, r, scan.contacts) by {
      ChatsPass(r, r, Folded(db, NOTHING), scan.chats, map[]);
      SendersPass(a, r, scan.senders);
    }
    PeersPass(FoldContacts(b, r, scan.contacts), r, scan.peers);
  }

  // A pairing not recorded before is recorded afterwards if and only if it was used for a chat or a sender; one that
  // was used for contacts or calls alone is not.
  lemma FoldRecordsChatAndSenderPairings(db: Db, r: Resolver, scan: Scan, l: string)
    requires Sound(r) && Scans(db, r, scan) && l !in db.lidMap
    ensures l in FoldLIDs(db, r, scan).db.lidMap <==>
            UsedForMessages(r, db.chats, FoldChats(Folded(db, NOTHING), r, scan.chats).db.messages, l)
    ensures l in FoldLIDs(db, r, scan).db.lidMap ==> FoldLIDs(db, r, scan).db.lidMap[l] == r(l) != ""
  {
    FoldMapGrows(db, r, scan);
    RecordedIffUsed(db, r, scan, l);
  }

  lemma RecordedIffUsed(db: Db, r: Resolver, scan: Scan, l: string)
    requires Sound(r) && Scans(db, r, scan) && l !in db.lidMap
    ensures l in FoldLIDs(db, r, scan).db.lidMap <==>
            UsedForMessages(r, db.chats, FoldChats(Folded(db, NOTHING), r, scan.chats).db.messages, l)
  {
    var a := FoldChats(Folded(db, NOTHING), r, scan.chats);
    FoldedMapIsSendersMap(db, r, scan);
    ChatsPassRecords(Folded(db, NOTHING), r, scan.chats);
    SendersPassRecords(a, r, scan.senders);
    ScannedChatUsed(r, scan.chats, db.chats, l);
    ScannedSenderUsed(r, scan.senders, a.db.messages, l);
  }

  lemma ScannedChatUsed(r: Resolver, list: seq<LidChat>, chats: map<string, Chat>, l: string)
    requires ScansChats(list, chats)
    ensures ChatListed(r, list, l) <==> l in chats && Resolvable(r, l)
  {
    if l in chats && Resolvable(r, l) {
      assert LidChat(l, chats[l]) in list;
    }
  }

  lemma ScannedSenderUsed(r: Resolver, list: seq<string>, m: map<Key, Message>, l: string)
    requires Sound(r) && ScansSenders(list, m)
    ensures SenderListed(r, list, l) <==> UsedForSender(r, m, l)
  {
    if s :| s in list && r(BareLID(s)) != "" && (l == s || l == BareLID(s)) {
      var k :| k in m && m[k].senderJID == s;
      assert r(s) == r(BareLID(s));
    }
    if k :| k in m && Resolvable(r, m[k].senderJID) && (l == m[k].senderJID || l == BareLID(m[k].senderJID)) {
      assert r(BareLID(m[k].senderJID)) == r(m[k].senderJID);
    }
  }

  ghost predicate Named(chats: map<string, Chat>, jid: string) {
    jid in chats && chats[jid].name != ""
  }

  lemma {:induction false} ChatsPassNames(f: Folded, r: Resolver, list: seq<LidChat>)
    requires Sound(r) && forall c :: c in list ==> LikeLid(c.jid)
    ensures forall jid :: !LikeLid(jid) && Named(f.db.chats, jid) ==> Named(FoldChats(f, r, list).db.chats, jid)
    ensures forall c :: c in list && r(c.jid) != "" && c.row.name != "" ==>
              !LikeLid(r(c.jid)) && Named(FoldChats(f, r, list).db.chats, r(c.jid))
  {
    if list != [] {
      var before, c := list[..|list| - 1], list[|list| - 1];
      assert list == before + [c] && c in list;
      ChatsPassNames(f, r, before);
      ChatStepNames(FoldChats(f, r, before), r, c);
    }
  }

  lemma ChatStepNames(f: Folded, r: Resolver, c: LidChat)
    requires Sound(r) && LikeLid(c.jid)
    ensures forall jid :: !LikeLid(jid) && Named(f.db.chats, jid) ==> Named(FoldChat(f, r, c).db.chats, jid)
    ensures r(c.jid) != "" && c.row.name != "" ==>
              !LikeLid(r(c.jid)) && Named(FoldChat(f, r, c).db.chats, r(c.jid))
  {
  }

  // The stored name of a folded chat is never blanked.
  lemma FoldKeepsChatNames(db: Db, r: Resolver, scan: Scan)
    requires Sound(r) && Scans(db, r, scan)
    ensures forall jid :: Named(db.chats, jid) ==> Named(FoldLIDs(db, r, scan).db.chats, Canon(r, jid))
  {
    FoldByTable(db, r, scan);
    ChatsPass(r, r, Folded(db, NOTHING), scan.chats, map[]);
    ChatsPassNames(Folded(db, NOTHING), r, scan.chats);
    forall jid | Named(db.chats, jid) && LikeLid(jid)
      ensures Named(FoldLIDs(db, r, scan).db.chats, Canon(r, jid))
    {
      assert LidChat(jid, db.chats[jid]) in scan.chats;
    }
  }

  lemma AddressKeepsItsName(db: Db, r: Resolver, scan: Scan, jid: string)
    requires Sound(r) && MapAgrees(r, db.lidMap) && Scans(db, r, scan) && ContactChain(db, jid) != ""
    ensures ContactChain(FoldLIDs(db, r, scan).db, Canon(r, jid)) != ""
  {
    var db' := FoldLIDs(db, r, scan).db;
    FoldByTable(db, r, scan);
    FoldMapGrows(db, r, scan);
    if NameOn(db.contacts, jid) != "" {
      if LikeLid(jid) {
        assert LidContact(jid, db.contacts[jid]) in scan.contacts;
      }
      assert NameOn(db'.contacts, Canon(r, jid)) != "";
    } else {
      assert NameOn(db'.contacts, db.lidMap[jid]) != "";
    }
  }

  // Stored copies of one message agree on who sent it.
  ghost predicate SendersAgree(r: Resolver, m: map<Key, Message>) {
    forall k, l :: k in m && l in m && CanonKey(r, k) == CanonKey(r, l) ==>
      Canon(r, m[k].senderJID) == Canon(r, m[l].senderJID)
  }

  // Repeat deliveries of one payload leave such copies.
  lemma SayingOneThingAgrees(r: Resolver, m: map<Key, Message>, said: map<Key, Payload>)
    requires Says(r, m, said)
    ensures SendersAgree(r, m)
  {
    forall k, l | k in m && l in m && CanonKey(r, k) == CanonKey(r, l)
      ensures Canon(r, m[k].senderJID) == Canon(r, m[l].senderJID)
    {
      assert CanonPayload(r, m[k]) == said[CanonKey(r, k)] == CanonPayload(r, m[l]);
    }
  }

  // The row left for a message is sent by whoever sent each of its copies.
  lemma FoldKeepsSenders(db: Db, r: Resolver, scan: Scan, k: Key)
    requires Sound(r) && HasChatRows(db) && Scans(db, r, scan) && SendersAgree(r, db.messages) && k in db.messages
    ensures var m' := FoldLIDs(db, r, scan).db.messages;
            CanonKey(r, k) in m' && m'[CanonKey(r, k)].senderJID == Canon(r, db.messages[k].senderJID)
  {
    FoldConservesMessages(db, r, scan);
    FoldKeepsRows(db, r, scan);
    var m' := FoldLIDs(db, r, scan).db.messages;
    assert CanonKey(r, k) in ViewKeys(r, db.messages);
    var l :| l in db.messages && CanonKey(r, l) == CanonKey(r, k) &&
             m'[CanonKey(r, k)] == db.messages[l].(senderJID := Canon(r, db.messages[l].senderJID));
  }

  // Whoever displayed a contact's name still does under the canonical address. A message whose sender displayed one
  // still shows one where its copy stays, and everywhere when the stored copies agree on the sender.
  lemma FoldLosesNoName(db: Db, r: Resolver, scan: Scan)
    requires Sound(r) && MapAgrees(r, db.lidMap) && HasChatRows(db) && Scans(db, r, scan)
    ensures var db' := FoldLIDs(db, r, scan).db;
      && (forall jid :: ContactChain(db, jid) != "" ==> ContactChain(db', Canon(r, jid)) != "")
      && (forall k ::
            (k in db.messages && !Resolvable(r, k.chatJID) && ContactChain(db, db.messages[k].senderJID) != "") ==>
              k in db'.messages && ContactChain(db', db'.messages[k].senderJID) != "")
      && (SendersAgree(r, db.messages) ==>
            forall k :: k in db.messages && ContactChain(db, db.messages[k].senderJID) != "" ==>
              CanonKey(r, k) in db'.messages && ContactChain(db', db'.messages[CanonKey(r, k)].senderJID) != "")
  {
    var db' := FoldLIDs(db, r, scan).db;
    forall jid | ContactChain(db, jid) != ""
      ensures ContactChain(db', Canon(r, jid)) != ""
    {
      AddressKeepsItsName(db, r, scan, jid);
    }
    FoldKeepsRows(db, r, scan);
    if SendersAgree(r, db.messages) {
      forall k | k in db.messages && ContactChain(db, db.messages[k].senderJID) != ""
        ensures CanonKey(r, k) in db'.messages && ContactChain(db', db'.messages[CanonKey(r, k)].senderJID) != ""
      {
        FoldKeepsSenders(db, r, scan, k);
      }
    }
  }

  // A sender shown by a contact's name is shown by one still.
  lemma SenderStaysNamed(db: Db, r: Resolver, scan: Scan, sender: string)
    requires Sound(r) && MapAgrees(r, db.lidMap) && Scans(db, r, scan) && ContactChain(db, sender) != ""
    ensures var db' := FoldLIDs(db, r, scan).db;
            SenderName(db', Canon(r, sender)) == ContactChain(db', Canon(r, sender)) != ""
  {
    AddressKeepsItsName(db, r, scan, sender);
  }

  // A chat with anything to show as a name still has one, unless what it showed was the phone address it is now under.
  lemma ChatStaysNamed(db: Db, r: Resolver, scan: Scan, jid: string)
    requires Sound(r) && MapAgrees(r, db.lidMap) && HasChatRows(db) && Scans(db, r, scan)
    requires jid in db.chats && ChatName(db, jid) != ""
    ensures var db' := FoldLIDs(db, r, scan).db;
            Canon(r, jid) in db'.chats &&
            (ChatName(db', Canon(r, jid)) != "" || ChatName(db, jid) == Canon(r, jid))
  {
    FoldMergesChats(db, r, scan);
    if db.chats[jid].name != "" {
      FoldKeepsChatNames(db, r, scan);
      assert Named(db.chats, jid);
    } else if ContactChain(db, jid) != "" {
      AddressKeepsItsName(db, r, scan, jid);
    } else {
      FoldMapGrows(db, r, scan);
    }
  }
}
