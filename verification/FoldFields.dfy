/** What the fold makes of each field of a chat and a contact, and what it counts. */
module FoldFields {
  import opened Tables
  import opened Fold
  import FoldTheorems

  /* ----- contacts, field by field ----- */

  datatype NameField = PushName | FullName | BusinessName

  function Get(c: Contact, which: NameField): string {
    match which
    case PushName => c.pushName
    case FullName => c.fullName
    case BusinessName => c.businessName
  }

  function GetOn(contacts: map<string, Contact>, jid: string, which: NameField): string {
    if jid in contacts then Get(contacts[jid], which) else ""
  }

  // A listed row of pn's class.
  predicate OfClass(r: Resolver, c: LidContact, pn: string) {
    pn != "" && r(BareLID(c.jid)) == pn
  }

  // What the pass has made of one field of the phone address pn: its own value if it had one, else that very field of
  // some listed row of its class, and nothing only if none of them had any.
  ghost predicate FieldCarried(r: Resolver, list: seq<LidContact>, was: map<string, Contact>, now: map<string, Contact>,
                               pn: string, which: NameField) {
    var old', new' := GetOn(was, pn, which), GetOn(now, pn, which);
    && (old' != "" ==> new' == old')
    && (old' == "" && new' != "" ==> Offered(r, list, pn, which, new'))
    && (old' == "" && new' == "" ==> forall c :: c in list && OfClass(r, c, pn) ==> Get(c.row, which) == "")
  }

  ghost predicate Offered(r: Resolver, list: seq<LidContact>, pn: string, which: NameField, value: string) {
    exists c :: c in list && OfClass(r, c, pn) && Get(c.row, which) == value
  }

  // The phone number: its own, else the digits of the address once a row was folded into it.
  ghost predicate PhoneCarried(r: Resolver, list: seq<LidContact>, was: map<string, Contact>, now: map<string, Contact>,
                               pn: string) {
    && (pn in was && was[pn].phone != "" ==> pn in now && now[pn].phone == was[pn].phone)
    && ((exists c :: c in list && OfClass(r, c, pn)) && (pn in was ==> was[pn].phone == "") ==>
          pn in now && now[pn].phone == PhoneDigits(pn))
    && ((forall c :: c in list ==> !OfClass(r, c, pn)) ==>
          (pn in now <==> pn in was) && (pn in was ==> now[pn] == was[pn]))
  }

  lemma MergedFields(contacts: map<string, Contact>, c: LidContact, pn: string, which: NameField)
    requires pn != c.jid
    ensures var now := MergeContact(contacts, c.row, pn) - {c.jid};
      && (GetOn(contacts, pn, which) != "" ==> GetOn(now, pn, which) == GetOn(contacts, pn, which))
      && (GetOn(contacts, pn, which) == "" ==> GetOn(now, pn, which) == Get(c.row, which))
      && pn in now
      && now[pn].phone == (if pn in contacts && contacts[pn].phone != "" then contacts[pn].phone else PhoneDigits(pn))
      && (forall j :: j != pn && j != c.jid ==> (j in now <==> j in contacts))
      && (forall j :: j != pn && j != c.jid && j in contacts ==> now[j] == contacts[j])
  {
  }

  lemma {:induction false} ContactsPassFields(f: Folded, r: Resolver, list: seq<LidContact>,
                                              pn: string, which: NameField)
    requires Sound(r) && !LikeLid(pn) && forall c :: c in list ==> LikeLid(c.jid)
    ensures FieldCarried(r, list, f.db.contacts, FoldContacts(f, r, list).db.contacts, pn, which)
    ensures PhoneCarried(r, list, f.db.contacts, FoldContacts(f, r, list).db.contacts, pn)
  {
    if list != [] {
      var before, c := list[..|list| - 1], list[|list| - 1];
      assert list == before + [c] && c in list;
      ContactsPassFields(f, r, before, pn, which);
      var mid := FoldContacts(f, r, before).db.contacts;
      ContactStepFields(r, before, f.db.contacts, mid, c, pn, which);
    }
  }

  function FoldedContacts(mid: map<string, Contact>, r: Resolver, c: LidContact): map<string, Contact> {
    if r(BareLID(c.jid)) == "" then mid else MergeContact(mid, c.row, r(BareLID(c.jid))) - {c.jid}
  }

  lemma ContactStepFields(r: Resolver, before: seq<LidContact>, was: map<string, Contact>, mid: map<string, Contact>,
                          c: LidContact, pn: string, which: NameField)
    requires Sound(r) && !LikeLid(pn) && LikeLid(c.jid)
    requires FieldCarried(r, before, was, mid, pn, which) && PhoneCarried(r, before, was, mid, pn)
    ensures FieldCarried(r, before + [c], was, FoldedContacts(mid, r, c), pn, which)
    ensures PhoneCarried(r, before + [c], was, FoldedContacts(mid, r, c), pn)
  {
    var to := r(BareLID(c.jid));
    assert r(BareLID(c.jid)) == r(c.jid);
    if to != "" {
      MergedFields(mid, c, to, which);
    }
    FieldStep(r, before, was, mid, c, pn, which);
    PhoneStep(r, before, was, mid, c, pn);
  }

  lemma FieldStep(r: Resolver, before: seq<LidContact>, was: map<string, Contact>, mid: map<string, Contact>,
                  c: LidContact, pn: string, which: NameField)
    requires Sound(r) && !LikeLid(pn) && LikeLid(c.jid) && r(BareLID(c.jid)) == r(c.jid)
    requires FieldCarried(r, before, was, mid, pn, which)
    ensures FieldCarried(r, before + [c], was, FoldedContacts(mid, r, c), pn, which)
  {
    var to := r(BareLID(c.jid));
    if to != "" {
      MergedFields(mid, c, to, which);
    }
    var all, now := before + [c], FoldedContacts(mid, r, c);
    assert c in all && forall d :: d in all <==> d in before || d == c;
    assert forall v :: Offered(r, before, pn, which, v) ==> Offered(r, all, pn, which, v);
    if OfClass(r, c, pn) {
      assert GetOn(now, pn, which) == if GetOn(mid, pn, which) != "" then GetOn(mid, pn, which) else Get(c.row, which);
      assert Offered(r, all, pn, which, Get(c.row, which));
    } else {
      assert GetOn(now, pn, which) == GetOn(mid, pn, which);
    }
  }

  lemma PhoneStep(r: Resolver, before: seq<LidContact>, was: map<string, Contact>, mid: map<string, Contact>,
                  c: LidContact, pn: string)
    requires Sound(r) && !LikeLid(pn) && LikeLid(c.jid) && r(BareLID(c.jid)) == r(c.jid)
    requires PhoneCarried(r, before, was, mid, pn)
    ensures PhoneCarried(r, before + [c], was, FoldedContacts(mid, r, c), pn)
  {
    var to := r(BareLID(c.jid));
    if to != "" {
      MergedFields(mid, c, to, PushName);
    }
    var all := before + [c];
    assert c in all && forall d :: d in all <==> d in before || d == c;
  }

  // Over the whole fold, field by field, for every phone address.
  lemma FoldCarriesEachField(db: Db, r: Resolver, scan: Scan, pn: string, which: NameField)
    requires Sound(r) && Scans(db, r, scan) && !LikeLid(pn)
    ensures var now := FoldLIDs(db, r, scan).db.contacts;
            FieldCarried(r, scan.contacts, db.contacts, now, pn, which) &&
            PhoneCarried(r, scan.contacts, db.contacts, now, pn)
  {
    var a := FoldChats(Folded(db, NOTHING), r, scan.chats);
    var b := FoldSenders(a, r, scan.senders);
    FoldTheorems.SendersKeepContacts(db, r, scan);
    ContactsPassFields(b, r, scan.contacts, pn, which);
    PeersPass(FoldContacts(b, r, scan.contacts), r, scan.peers);
  }

  /* ----- chats, field by field ----- */

  predicate ChatOfClass(r: Resolver, c: LidChat, pn: string) {
    pn != "" && r(c.jid) == pn
  }

  // An existing phone chat keeps its group flag, its archived mark and its own name; an empty name is filled from a
  // listed chat of the class. A chat made by the fold is a direct one, with the archived mark of a listed chat.
  ghost predicate ChatCarried(r: Resolver, list: seq<LidChat>, was: map<string, Chat>, now: map<string, Chat>,
                              pn: string) {
    && (pn in was ==> pn in now && now[pn].isGroup == was[pn].isGroup && now[pn].archived == was[pn].archived)
    && (pn in was && was[pn].name != "" ==> pn in now && now[pn].name == was[pn].name)
    && (pn in now && (pn in was ==> was[pn].name == "") && now[pn].name != "" ==>
          ChatNameOffered(r, list, pn, now[pn].name))
    && (pn in now && now[pn].name == "" ==> forall c :: c in list && ChatOfClass(r, c, pn) ==> c.row.name == "")
    && (pn in now && pn !in was ==> !now[pn].isGroup && ArchivedOffered(r, list, pn, now[pn].archived))
    && (pn in now <==> pn in was || exists c :: c in list && ChatOfClass(r, c, pn))
  }

  ghost predicate ChatNameOffered(r: Resolver, list: seq<LidChat>, pn: string, name: string) {
    exists c :: c in list && ChatOfClass(r, c, pn) && c.row.name == name
  }

  ghost predicate ArchivedOffered(r: Resolver, list: seq<LidChat>, pn: string, archived: bool) {
    exists c :: c in list && ChatOfClass(r, c, pn) && c.row.archived == archived
  }

  function FoldedChats(mid: map<string, Chat>, r: Resolver, c: LidChat): map<string, Chat> {
    if r(c.jid) == "" then mid else MergeChat(mid, c.row, r(c.jid)) - {c.jid}
  }

  lemma ChatStepFields(r: Resolver, before: seq<LidChat>, was: map<string, Chat>, mid: map<string, Chat>,
                       c: LidChat, pn: string)
    requires Sound(r) && !LikeLid(pn) && LikeLid(c.jid) && ChatCarried(r, before, was, mid, pn)
    ensures ChatCarried(r, before + [c], was, FoldedChats(mid, r, c), pn)
  {
    var all, now := before + [c], FoldedChats(mid, r, c);
    assert c in all && forall d :: d in all <==> d in before || d == c;
    assert forall v :: ChatNameOffered(r, before, pn, v) ==> ChatNameOffered(r, all, pn, v);
    assert forall v :: ArchivedOffered(r, before, pn, v) ==> ArchivedOffered(r, all, pn, v);
    if ChatOfClass(r, c, pn) {
      assert ChatNameOffered(r, all, pn, c.row.name) && ArchivedOffered(r, all, pn, c.row.archived);
    } else {
      assert (pn in now <==> pn in mid) && (pn in mid ==> now[pn] == mid[pn]);
    }
  }

  lemma {:induction false} ChatsPassFields(f: Folded, r: Resolver, list: seq<LidChat>, pn: string)
    requires Sound(r) && !LikeLid(pn) && forall c :: c in list ==> LikeLid(c.jid)
    ensures ChatCarried(r, list, f.db.chats, FoldChats(f, r, list).db.chats, pn)
  {
    if list != [] {
      var before, c := list[..|list| - 1], list[|list| - 1];
      assert list == before + [c] && c in list;
      ChatsPassFields(f, r, before, pn);
      ChatStepFields(r, before, f.db.chats, FoldChats(f, r, before).db.chats, c, pn);
    }
  }

  // Over the whole fold, for every phone chat.
  lemma FoldCarriesEachChat(db: Db, r: Resolver, scan: Scan, pn: string)
    requires Sound(r) && Scans(db, r, scan) && !LikeLid(pn)
    ensures ChatCarried(r, scan.chats, db.chats, FoldLIDs(db, r, scan).db.chats, pn)
  {
    FoldTheorems.FoldByTable(db, r, scan);
    ChatsPassFields(Folded(db, NOTHING), r, scan.chats, pn);
  }

  /* ----- what is counted ----- */

  function ResolvableChats(r: Resolver, chats: map<string, Chat>): set<string> {
    set j | j in chats && LikeLid(j) && r(j) != ""
  }

  function ResolvableContacts(r: Resolver, contacts: map<string, Contact>): set<string> {
    set j | j in contacts && LikeLid(j) && r(j) != ""
  }

  function ResolvableCalls(r: Resolver, calls: map<string, Call>): set<string> {
    set id | id in calls && LikeLid(calls[id].peerJID) && r(calls[id].peerJID) != ""
  }

  function ResolvableSenders(r: Resolver, m: map<Key, Message>): set<Key> {
    set k | k in m && LikeLid(m[k].senderJID) && r(m[k].senderJID) != ""
  }

  // Messages stored under a chat the resolver could name.
  function ResolvableKeys(r: Resolver, m: map<Key, Message>): set<Key> {
    set k | k in m && LikeLid(k.chatJID) && r(k.chatJID) != ""
  }

  lemma {:induction false} RekeyedSize(s: set<Key>, from: string, to: string)
    requires forall k :: k in s ==> k.chatJID == from
    ensures |set k | k in s :: Key(to, k.id)| == |s|
    decreases |s|
  {
    var image := set k | k in s :: Key(to, k.id);
    if s != {} {
      var x :| x in s;
      var rest := s - {x};
      RekeyedSize(rest, from, to);
      var restImage := set k | k in rest :: Key(to, k.id);
      forall k | k in rest
        ensures Key(to, k.id) != Key(to, x.id)
      {
      }
      assert image == restImage + {Key(to, x.id)};
    }
  }

  lemma MovedKeys(m: map<Key, Message>, from: string, to: string)
    requires from != to
    ensures var held, moved := set k | k in m && k.chatJID == from, set k | k in m && Moves(m, from, to, k);
            var image := set k | k in moved :: Key(to, k.id);
            MoveChat(m, from, to).Keys == (m.Keys - held) + image && image !! m.Keys && held <= m.Keys
  {
    MoveChatContents(m, from, to);
    forall k | k in MoveChat(m, from, to) && k !in m
      ensures Moves(m, from, to, Key(from, k.id)) && k == Key(to, Key(from, k.id).id)
    {
    }
  }

  // Moving a chat: the rows that had to stay behind are the ones dropped.
  lemma MovedSize(m: map<Key, Message>, from: string, to: string)
    requires from != to
    ensures var held, moved := set k | k in m && k.chatJID == from, set k | k in m && Moves(m, from, to, k);
            |MoveChat(m, from, to)| == |m| - |held| + |moved|
  {
    var held, moved := set k | k in m && k.chatJID == from, set k | k in m && Moves(m, from, to, k);
    var image := set k | k in moved :: Key(to, k.id);
    MovedKeys(m, from, to);
    RekeyedSize(moved, from, to);
    SizeAfterMove(m.Keys, held, image);
    assert |MoveChat(m, from, to)| == |MoveChat(m, from, to).Keys| && |m| == |m.Keys|;
  }

  lemma SizeAfterMove(all: set<Key>, held: set<Key>, image: set<Key>)
    requires held <= all && image !! all
    ensures |(all - held) + image| == |all| - |held| + |image|
  {
    assert (all - held) !! image;
  }

  lemma MovedKeysSize(r: Resolver, m: map<Key, Message>, from: string, to: string)
    requires from != to && LikeLid(from) && r(from) == to && to != "" && !LikeLid(to)
    ensures |ResolvableKeys(r, MoveChat(m, from, to))| ==
            |ResolvableKeys(r, m)| - |set k | k in m && k.chatJID == from|
  {
    MoveChatContents(m, from, to);
    var held := set k | k in m && k.chatJID == from;
    assert held <= ResolvableKeys(r, m);
    assert ResolvableKeys(r, MoveChat(m, from, to)) == ResolvableKeys(r, m) - held;
  }

  // So far: one for every chat gone, and one for every message moved rather than dropped.
  ghost predicate ChatsCounted(r: Resolver, f: Folded, g: Folded) {
    && g.stats.chats + |ResolvableChats(r, g.db.chats)| == f.stats.chats + |ResolvableChats(r, f.db.chats)|
    && g.stats.messages + |ResolvableKeys(r, g.db.messages)| - |g.db.messages| ==
       f.stats.messages + |ResolvableKeys(r, f.db.messages)| - |f.db.messages|
    && g.stats.contacts == f.stats.contacts && g.stats.calls == f.stats.calls
  }

  lemma ChatStepCounts(r: Resolver, g: Folded, c: LidChat)
    requires Sound(r) && LikeLid(c.jid) && c.jid in g.db.chats
    ensures ChatsCounted(r, g, FoldChat(g, r, c))
  {
    var pn := r(c.jid);
    if pn != "" {
      MovedSize(g.db.messages, c.jid, pn);
      MovedKeysSize(r, g.db.messages, c.jid, pn);
      assert ResolvableChats(r, FoldChat(g, r, c).db.chats) == ResolvableChats(r, g.db.chats) - {c.jid};
    }
  }

  lemma {:induction false} ChatsPassCounts(r: Resolver, f: Folded, list: seq<LidChat>)
    requires Sound(r) && ListsChats(list, f.db.chats)
    ensures ChatsCounted(r, f, FoldChats(f, r, list))
  {
    if list != [] {
      var before, c := list[..|list| - 1], list[|list| - 1];
      assert list == before + [c] && c in list;
      ChatsPassCounts(r, f, before);
      ChatsPass(r, r, f, before, map[]);
      ChatStepCounts(r, FoldChats(f, r, before), c);
    }
  }

  lemma SenderStepCounts(r: Resolver, g: Folded, s: string)
    requires Sound(r) && LikeLid(s)
    ensures FoldSender(g, r, s).stats ==
            g.stats.(messages := FoldSender(g, r, s).stats.messages)
    ensures FoldSender(g, r, s).stats.messages + |ResolvableSenders(r, FoldSender(g, r, s).db.messages)| ==
            g.stats.messages + |ResolvableSenders(r, g.db.messages)|
  {
    var pn := r(BareLID(s));
    assert r(BareLID(s)) == r(s);
    if pn != "" {
      var hit := set k | k in g.db.messages && g.db.messages[k].senderJID == s;
      assert hit <= ResolvableSenders(r, g.db.messages);
      assert ResolvableSenders(r, FoldSender(g, r, s).db.messages) == ResolvableSenders(r, g.db.messages) - hit;
    }
  }

  lemma {:induction false} SendersPassCounts(r: Resolver, f: Folded, list: seq<string>)
    requires Sound(r) && forall s :: s in list ==> LikeLid(s)
    ensures var g := FoldSenders(f, r, list);
      && g.stats == f.stats.(messages := g.stats.messages)
      && g.stats.messages + |ResolvableSenders(r, g.db.messages)| ==
         f.stats.messages + |ResolvableSenders(r, f.db.messages)|
  {
    if list != [] {
      assert list[|list| - 1] in list;
      SendersPassCounts(r, f, list[..|list| - 1]);
      SenderStepCounts(r, FoldSenders(f, r, list[..|list| - 1]), list[|list| - 1]);
    }
  }

  lemma ContactStepCounts(r: Resolver, g: Folded, c: LidContact)
    requires Sound(r) && LikeLid(c.jid) && c.jid in g.db.contacts
    ensures FoldContact(g, r, c).stats == g.stats.(contacts := FoldContact(g, r, c).stats.contacts)
    ensures FoldContact(g, r, c).stats.contacts + |ResolvableContacts(r, FoldContact(g, r, c).db.contacts)| ==
            g.stats.contacts + |ResolvableContacts(r, g.db.contacts)|
  {
    assert r(BareLID(c.jid)) == r(c.jid);
    if r(c.jid) != "" {
      assert ResolvableContacts(r, FoldContact(g, r, c).db.contacts) == ResolvableContacts(r, g.db.contacts) - {c.jid};
    }
  }

  lemma {:induction false} ContactsPassCounts(r: Resolver, f: Folded, list: seq<LidContact>)
    requires Sound(r) && ListsContacts(list, f.db.contacts)
    ensures var g := FoldContacts(f, r, list);
      && g.stats == f.stats.(contacts := g.stats.contacts)
      && g.stats.contacts + |ResolvableContacts(r, g.db.contacts)| ==
         f.stats.contacts + |ResolvableContacts(r, f.db.contacts)|
  {
    if list != [] {
      var before, c := list[..|list| - 1], list[|list| - 1];
      LastListedContact(list, f.db.contacts);
      ContactsPassCounts(r, f, before);
      UnlistedContactStays(f, r, before, c.jid);
      ContactStepCounts(r, FoldContacts(f, r, before), c);
    }
  }

  lemma PeerStepCounts(r: Resolver, g: Folded, p: string)
    requires Sound(r) && LikeLid(p)
    ensures FoldPeer(g, r, p).stats == g.stats.(calls := FoldPeer(g, r, p).stats.calls)
    ensures FoldPeer(g, r, p).stats.calls + |ResolvableCalls(r, FoldPeer(g, r, p).db.calls)| ==
            g.stats.calls + |ResolvableCalls(r, g.db.calls)|
  {
    var pn := r(BareLID(p));
    assert r(BareLID(p)) == r(p);
    if pn != "" {
      var hit := set id | id in g.db.calls && g.db.calls[id].peerJID == p;
      assert hit <= ResolvableCalls(r, g.db.calls);
      assert ResolvableCalls(r, FoldPeer(g, r, p).db.calls) == ResolvableCalls(r, g.db.calls) - hit;
    }
  }

  lemma {:induction false} PeersPassCounts(r: Resolver, f: Folded, list: seq<string>)
    requires Sound(r) && forall p :: p in list ==> LikeLid(p)
    ensures var g := FoldPeers(f, r, list);
      && g.stats == f.stats.(calls := g.stats.calls)
      && g.stats.calls + |ResolvableCalls(r, g.db.calls)| == f.stats.calls + |ResolvableCalls(r, f.db.calls)|
  {
    if list != [] {
      assert list[|list| - 1] in list;
      PeersPassCounts(r, f, list[..|list| - 1]);
      PeerStepCounts(r, FoldPeers(f, r, list[..|list| - 1]), list[|list| - 1]);
    }
  }

  // The counters of a whole fold: every resolvable chat, contact and call once; and for messages, every one moved to
  // another chat, that is every one under a resolvable chat but the copies dropped, plus every one whose sender
  // changed.
  lemma FoldCountsItsWork(db: Db, r: Resolver, scan: Scan)
    requires Sound(r) && HasChatRows(db) && Scans(db, r, scan)
    ensures var stats, moved := FoldLIDs(db, r, scan).stats, FoldChats(Folded(db, NOTHING), r, scan.chats).db.messages;
      && stats.chats == |ResolvableChats(r, db.chats)|
      && stats.contacts == |ResolvableContacts(r, db.contacts)|
      && stats.calls == |ResolvableCalls(r, db.calls)|
      && stats.messages == |ResolvableKeys(r, db.messages)| - (|db.messages| - |moved|) + |ResolvableSenders(r, moved)|
  {
    var a := FoldChats(Folded(db, NOTHING), r, scan.chats);
    var b := FoldSenders(a, r, scan.senders);
    var c := FoldContacts(b, r, scan.contacts);
    FoldTheorems.SendersKeepContacts(db, r, scan);
    ChatsPassCounts(r, Folded(db, NOTHING), scan.chats);
    SendersPassCounts(r, a, scan.senders);
    ContactsPassCounts(r, b, scan.contacts);
    ContactsPass(b, r, scan.contacts);
    PeersPassCounts(r, c, scan.peers);
    LaterPassesLeaveAlone(db, r, scan);
    NothingLeftToCount(db, r, scan);
  }

  lemma LaterPassesLeaveAlone(db: Db, r: Resolver, scan: Scan)
    requires Sound(r) && Scans(db, r, scan)
    ensures var a := FoldChats(Folded(db, NOTHING), r, scan.chats);
            var b := FoldSenders(a, r, scan.senders);
            var c := FoldContacts(b, r, scan.contacts);
            var db' := FoldLIDs(db, r, scan).db;
            db'.chats == a.db.chats && db'.messages == b.db.messages && db'.contacts == c.db.contacts &&
            c.db.calls == db.calls
  {
    var a := FoldChats(Folded(db, NOTHING), r, scan.chats);
    var b := FoldSenders(a, r, scan.senders);
    FoldTheorems.SendersKeepContacts(db, r, scan);
    SendersPass(a, r, scan.senders);
    ContactsPass(b, r, scan.contacts);
    PeersPass(FoldContacts(b, r, scan.contacts), r, scan.peers);
  }

  lemma NothingLeftToCount(db: Db, r: Resolver, scan: Scan)
    requires Sound(r) && HasChatRows(db) && Scans(db, r, scan)
    ensures var db' := FoldLIDs(db, r, scan).db;
      && ResolvableChats(r, db'.chats) == {} && ResolvableSenders(r, db'.messages) == {}
      && ResolvableContacts(r, db'.contacts) == {} && ResolvableCalls(r, db'.calls) == {}
      && ResolvableKeys(r, FoldChats(Folded(db, NOTHING), r, scan.chats).db.messages) == {}
  {
    FoldTheorems.MovedIsConserved(db, r, scan);
    FoldTheorems.FoldConservesMessages(db, r, scan);
  }
}
