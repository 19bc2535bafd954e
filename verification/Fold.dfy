/** The fold of privacy addresses into phone addresses: the meaning of its four
passes over the tables, and what each pass keeps. */
module Fold {
  import opened Tables

  datatype Stats = Stats(chats: nat, messages: nat, contacts: nat, calls: nat) {
    function Total(): nat {
      chats + messages + contacts + calls
    }
  }

  const NOTHING := Stats(0, 0, 0, 0)

  datatype Folded = Folded(db: Db, stats: Stats)

  // A row as the scan before the loop read it.
  datatype LidChat = LidChat(jid: string, row: Chat)
  datatype LidContact = LidContact(jid: string, row: Contact)

  // What the four scans returned, in whatever order the database chose.
  datatype Scan = Scan(chats: seq<LidChat>, senders: seq<string>, contacts: seq<LidContact>, peers: seq<string>)

  /* ----- statements ----- */

  predicate Moves(m: map<Key, Message>, from: string, to: string, k: Key) {
    k.chatJID == from && Key(to, k.id) !in m
  }

  // UPDATE OR IGNORE: a row whose new key is taken stays where it is.
  function RekeyOrIgnore(m: map<Key, Message>, from: string, to: string): map<Key, Message> {
    map k | k in (set k | k in m && !Moves(m, from, to, k)) + (set k | k in m && Moves(m, from, to, k) :: Key(to, k.id))
        :: if k in m then m[k] else m[Key(from, k.id)]
  }

  function DeleteChat(m: map<Key, Message>, chat: string): map<Key, Message> {
    map k | k in m && k.chatJID != chat :: m[k]
  }

  function MoveChat(m: map<Key, Message>, from: string, to: string): map<Key, Message> {
    DeleteChat(RekeyOrIgnore(m, from, to), from)
  }

  // The phone chat keeps its own name and flags and takes the later time.
  function MergeChat(chats: map<string, Chat>, c: Chat, pn: string): map<string, Chat> {
    if pn in chats then
      var was := chats[pn];
      chats[pn := was.(name := Keep(was.name, c.name), lastMessageAt := Max(was.lastMessageAt, c.lastMessageAt))]
    else chats[pn := Chat(c.name, false, c.archived, c.lastMessageAt)]
  }

  function RenameSender(m: map<Key, Message>, from: string, to: string): map<Key, Message> {
    map k | k in m :: if m[k].senderJID == from then m[k].(senderJID := to) else m[k]
  }

  function MergeContact(contacts: map<string, Contact>, c: Contact, pn: string): map<string, Contact> {
    var row :=
      if pn in contacts then
        var was := contacts[pn];
        Contact(Keep(was.phone, PhoneDigits(pn)), Keep(was.pushName, c.pushName),
                Keep(was.fullName, c.fullName), Keep(was.businessName, c.businessName))
      else Contact(PhoneDigits(pn), c.pushName, c.fullName, c.businessName);
    contacts[pn := row]
  }

  function RenamePeer(calls: map<string, Call>, from: string, to: string): map<string, Call> {
    map id | id in calls :: if calls[id].peerJID == from then calls[id].(peerJID := to) else calls[id]
  }

  /* ----- one loop iteration of each pass ----- */

  function FoldChat(f: Folded, r: Resolver, c: LidChat): Folded {
    var pn := r(c.jid);
    if pn == "" then f
    else
      var moved := |set k | k in f.db.messages && Moves(f.db.messages, c.jid, pn, k)|;
      Folded(
        f.db.(chats := MergeChat(f.db.chats, c.row, pn) - {c.jid},
              messages := MoveChat(f.db.messages, c.jid, pn),
              lidMap := f.db.lidMap[c.jid := pn]),
        f.stats.(chats := f.stats.chats + 1, messages := f.stats.messages + moved))
  }

  function FoldSender(f: Folded, r: Resolver, sender: string): Folded {
    var pn := r(BareLID(sender));
    if pn == "" then f
    else
      var renamed := |set k | k in f.db.messages && f.db.messages[k].senderJID == sender|;
      Folded(
        f.db.(messages := RenameSender(f.db.messages, sender, pn),
              lidMap := f.db.lidMap[sender := pn][BareLID(sender) := pn]),
        f.stats.(messages := f.stats.messages + renamed))
  }

  function FoldContact(f: Folded, r: Resolver, c: LidContact): Folded {
    var pn := r(BareLID(c.jid));
    if pn == "" then f
    else
      Folded(f.db.(contacts := MergeContact(f.db.contacts, c.row, pn) - {c.jid}),
             f.stats.(contacts := f.stats.contacts + 1))
  }

  function FoldPeer(f: Folded, r: Resolver, peer: string): Folded {
    var pn := r(BareLID(peer));
    if pn == "" then f
    else
      var renamed := |set id | id in f.db.calls && f.db.calls[id].peerJID == peer|;
      Folded(f.db.(calls := RenamePeer(f.db.calls, peer, pn)), f.stats.(calls := f.stats.calls + renamed))
  }

  /* ----- the passes ----- */

  function FoldChats(f: Folded, r: Resolver, list: seq<LidChat>): Folded {
    if list == [] then f else FoldChat(FoldChats(f, r, list[..|list| - 1]), r, list[|list| - 1])
  }

  function FoldSenders(f: Folded, r: Resolver, list: seq<string>): Folded {
    if list == [] then f else FoldSender(FoldSenders(f, r, list[..|list| - 1]), r, list[|list| - 1])
  }

  function FoldContacts(f: Folded, r: Resolver, list: seq<LidContact>): Folded {
    if list == [] then f else FoldContact(FoldContacts(f, r, list[..|list| - 1]), r, list[|list| - 1])
  }

  function FoldPeers(f: Folded, r: Resolver, list: seq<string>): Folded {
    if list == [] then f else FoldPeer(FoldPeers(f, r, list[..|list| - 1]), r, list[|list| - 1])
  }

  function FoldLIDs(db: Db, r: Resolver, scan: Scan): Folded {
    var a := FoldChats(Folded(db, NOTHING), r, scan.chats);
    var b := FoldSenders(a, r, scan.senders);
    var c := FoldContacts(b, r, scan.contacts);
    FoldPeers(c, r, scan.peers)
  }

  /* ----- what a scan returns ----- */

  // Rows of the table under privacy addresses, none twice.
  ghost predicate ListsChats(list: seq<LidChat>, chats: map<string, Chat>) {
    && (forall i, j :: 0 <= i < j < |list| ==> list[i].jid != list[j].jid)
    && (forall c :: c in list ==> LikeLid(c.jid) && c.jid in chats && chats[c.jid] == c.row)
  }

  ghost predicate ScansChats(list: seq<LidChat>, chats: map<string, Chat>) {
    && ListsChats(list, chats)
    && (forall jid :: jid in chats && LikeLid(jid) ==> LidChat(jid, chats[jid]) in list)
  }

  ghost predicate ScansSenders(list: seq<string>, m: map<Key, Message>) {
    && (forall i, j :: 0 <= i < j < |list| ==> list[i] != list[j])
    && (forall s :: s in list ==> LikeLid(s) && exists k :: k in m && m[k].senderJID == s)
    && (forall k :: k in m && LikeLid(m[k].senderJID) ==> m[k].senderJID in list)
  }

  ghost predicate ListsContacts(list: seq<LidContact>, contacts: map<string, Contact>) {
    && (forall i, j :: 0 <= i < j < |list| ==> list[i].jid != list[j].jid)
    && (forall c :: c in list ==> LikeLid(c.jid) && c.jid in contacts && contacts[c.jid] == c.row)
  }

  ghost predicate ScansContacts(list: seq<LidContact>, contacts: map<string, Contact>) {
    && ListsContacts(list, contacts)
    && (forall jid :: jid in contacts && LikeLid(jid) ==> LidContact(jid, contacts[jid]) in list)
  }

  ghost predicate ScansPeers(list: seq<string>, calls: map<string, Call>) {
    && (forall i, j :: 0 <= i < j < |list| ==> list[i] != list[j])
    && (forall p :: p in list ==> LikeLid(p) && exists id :: id in calls && calls[id].peerJID == p)
    && (forall id :: id in calls && LikeLid(calls[id].peerJID) ==> calls[id].peerJID in list)
  }

  // Each pass scans what the passes before it left.
  ghost predicate Scans(db: Db, r: Resolver, scan: Scan) {
    && ScansChats(scan.chats, db.chats)
    && ScansSenders(scan.senders, FoldChats(Folded(db, NOTHING), r, scan.chats).db.messages)
    && ScansContacts(scan.contacts, db.contacts)
    && ScansPeers(scan.peers, db.calls)
  }

  /* ----- the canonical view ----- */

  // The one address a person is known by once r's pairings are applied.
  function Canon(r: Resolver, jid: string): string {
    if LikeLid(jid) && r(jid) != "" then r(jid) else jid
  }

  function CanonKey(r: Resolver, k: Key): Key {
    Key(Canon(r, k.chatJID), k.id)
  }

  function ViewKeys(r: Resolver, m: map<Key, Message>): set<Key> {
    set k | k in m :: CanonKey(r, k)
  }

  // Some row of p's class carries last_message_at t or later.
  ghost predicate Reaches(r: Resolver, chats: map<string, Chat>, p: string, t: int) {
    exists j :: j in chats && Canon(r, j) == p && t <= chats[j].lastMessageAt
  }

  datatype Payload = Payload(senderJID: string, content: Content)

  function CanonPayload(r: Resolver, m: Message): Payload {
    Payload(Canon(r, m.senderJID), m.content)
  }

  // Every stored copy of a message says what `said` says of it.
  ghost predicate Says(r: Resolver, m: map<Key, Message>, said: map<Key, Payload>) {
    forall k :: k in m ==> CanonKey(r, k) in said && said[CanonKey(r, k)] == CanonPayload(r, m[k])
  }

  ghost predicate HasChatRows(db: Db) {
    forall k :: k in db.messages ==> k.chatJID in db.chats
  }

  // No message is newer than its chat row says.
  ghost predicate Bounds(db: Db) {
    forall k :: k in db.messages ==>
      k.chatJID in db.chats && db.messages[k].content.ts <= db.chats[k.chatJID].lastMessageAt
  }

  // Ingesting one message: its chat row first, then the message under it.
  function Receive(db: Db, key: Key, sender: string, chatName: string, isGroup: bool,
                   content: Content, rowid: int): Db {
    UpsertMessage(UpsertChat(db, key.chatJID, chatName, isGroup, content.ts), key, sender, content, rowid)
  }

  // r0 knows some of r's pairings and contradicts none.
  ghost predicate Below(r0: Resolver, r: Resolver) {
    forall j :: r0(j) != "" ==> r0(j) == r(j)
  }

  /* ----- the chat pass ----- */

  // Moving a chat: what it held is under the new key, unless a copy was there already, which wins.
  lemma MoveChatContents(m: map<Key, Message>, from: string, to: string)
    requires from != to
    ensures forall k :: k in MoveChat(m, from, to) <==>
              k.chatJID != from && (k in m || (k.chatJID == to && Key(from, k.id) in m))
    ensures forall k :: k in MoveChat(m, from, to) ==>
              MoveChat(m, from, to)[k] == if k in m then m[k] else m[Key(from, k.id)]
  {
  }

  lemma ChatStepKeepsKeys(r: Resolver, m: map<Key, Message>, from: string, to: string)
    requires from != to && Canon(r, from) == to && Canon(r, to) == to
    ensures ViewKeys(r, MoveChat(m, from, to)) == ViewKeys(r, m)
  {
    MoveChatContents(m, from, to);
    var m' := MoveChat(m, from, to);
    forall k | k in m
      ensures CanonKey(r, k) in ViewKeys(r, m')
    {
      var k' := if k.chatJID == from then Key(to, k.id) else k;
      assert k' in m' && CanonKey(r, k') == CanonKey(r, k);
    }
    forall k | k in m'
      ensures CanonKey(r, k) in ViewKeys(r, m)
    {
      var k0 := if k in m then k else Key(from, k.id);
      assert k0 in m && CanonKey(r, k0) == CanonKey(r, k);
    }
  }

  lemma ChatStepKeepsReach(r: Resolver, chats: map<string, Chat>, from: string, to: string)
    requires from in chats && from != to && Canon(r, from) == to && Canon(r, to) == to
    ensures forall p, t :: Reaches(r, MergeChat(chats, chats[from], to) - {from}, p, t) <==> Reaches(r, chats, p, t)
  {
  }

  lemma ChatStepSays(r: Resolver, m: map<Key, Message>, from: string, to: string, said: map<Key, Payload>)
    requires from != to && Canon(r, from) == to && Canon(r, to) == to && Says(r, m, said)
    ensures Says(r, MoveChat(m, from, to), said)
  {
  }

  lemma ChatStepKeepsRows(db: Db, from: string, to: string)
    requires from in db.chats && from != to
    ensures var db' := db.(chats := MergeChat(db.chats, db.chats[from], to) - {from},
                           messages := MoveChat(db.messages, from, to));
            (HasChatRows(db) ==> HasChatRows(db')) && (Bounds(db) ==> Bounds(db'))
  {
    if HasChatRows(db) {
      MoveKeepsChatRows(db, from, to);
    }
    if Bounds(db) {
      MoveKeepsBounds(db, from, to);
    }
  }

  lemma MoveKeepsChatRows(db: Db, from: string, to: string)
    requires from in db.chats && from != to && HasChatRows(db)
    ensures forall k :: k in MoveChat(db.messages, from, to) ==>
              k.chatJID in MergeChat(db.chats, db.chats[from], to) - {from}
  {
    MoveChatContents(db.messages, from, to);
  }

  lemma MoveKeepsBounds(db: Db, from: string, to: string)
    requires from in db.chats && from != to && Bounds(db)
    ensures var chats, m := MergeChat(db.chats, db.chats[from], to) - {from}, MoveChat(db.messages, from, to);
            forall k :: k in m ==> k.chatJID in chats && m[k].content.ts <= chats[k.chatJID].lastMessageAt
  {
    MoveChatContents(db.messages, from, to);
  }

  // The pass preserves r's view of the tables even when it only knows some of r's pairings,
  // and leaves no chat row it could resolve.
  ghost predicate ChatPassKeeps(r: Resolver, db: Db, db': Db, said: map<Key, Payload>) {
    && ViewKeys(r, db'.messages) == ViewKeys(r, db.messages)
    && (forall p, t :: Reaches(r, db'.chats, p, t) <==> Reaches(r, db.chats, p, t))
    && (Says(r, db.messages, said) ==> Says(r, db'.messages, said))
    && (HasChatRows(db) ==> HasChatRows(db'))
    && (Bounds(db) ==> Bounds(db'))
    && db'.contacts == db.contacts && db'.calls == db.calls
  }

  lemma {:induction false} ChatsPass(r0: Resolver, r: Resolver, f: Folded, list: seq<LidChat>, said: map<Key, Payload>)
    requires Sound(r0) && Sound(r) && Below(r0, r)
    requires ListsChats(list, f.db.chats)
    ensures ChatPassKeeps(r, f.db, FoldChats(f, r0, list).db, said)
    ensures forall jid :: LikeLid(jid) ==>
      (jid in FoldChats(f, r0, list).db.chats <==>
         jid in f.db.chats && (r0(jid) == "" || forall c :: c in list ==> c.jid != jid))
    ensures forall jid :: LikeLid(jid) && jid in FoldChats(f, r0, list).db.chats ==>
      FoldChats(f, r0, list).db.chats[jid] == f.db.chats[jid]
  {
    if list != [] {
      var before, c := list[..|list| - 1], list[|list| - 1];
      assert list == before + [c];
      ChatsPass(r0, r, f, before, said);
      assert c in list;
      ChatStep(r0, r, FoldChats(f, r0, before), c, said);
    }
  }

  lemma ChatStep(r0: Resolver, r: Resolver, f: Folded, c: LidChat, said: map<Key, Payload>)
    requires Sound(r0) && Sound(r) && Below(r0, r)
    requires LikeLid(c.jid) && c.jid in f.db.chats && f.db.chats[c.jid] == c.row
    ensures ChatPassKeeps(r, f.db, FoldChat(f, r0, c).db, said)
    ensures forall jid :: LikeLid(jid) ==>
      (jid in FoldChat(f, r0, c).db.chats <==> jid in f.db.chats && (r0(jid) == "" || jid != c.jid))
    ensures forall jid :: LikeLid(jid) && jid in FoldChat(f, r0, c).db.chats ==>
      FoldChat(f, r0, c).db.chats[jid] == f.db.chats[jid]
  {
    var pn := r0(c.jid);
    if pn != "" {
      assert r(c.jid) == pn && !LikeLid(pn);
      ChatStepKeepsKeys(r, f.db.messages, c.jid, pn);
      ChatStepKeepsReach(r, f.db.chats, c.jid, pn);
      if Says(r, f.db.messages, said) {
        ChatStepSays(r, f.db.messages, c.jid, pn, said);
      }
      ChatStepKeepsRows(f.db, c.jid, pn);
    }
  }

  // A copy already keyed on a phone, or on an address nobody can resolve, is untouched by the pass;
  // whatever is stored afterwards is some copy of the same message.
  ghost predicate CopiesOf(r: Resolver, m: map<Key, Message>, m': map<Key, Message>) {
    && (forall k :: k in m && !(LikeLid(k.chatJID) && r(k.chatJID) != "") ==> k in m' && m'[k] == m[k])
    && (forall k' :: k' in m' ==> exists k :: k in m && CanonKey(r, k) == CanonKey(r, k') && m'[k'] == m[k])
  }

  lemma {:induction false} ChatsPassCopies(r: Resolver, f: Folded, list: seq<LidChat>)
    requires Sound(r) && forall c :: c in list ==> LikeLid(c.jid)
    ensures CopiesOf(r, f.db.messages, FoldChats(f, r, list).db.messages)
  {
    if list != [] {
      var before, c := list[..|list| - 1], list[|list| - 1];
      assert list == before + [c];
      ChatsPassCopies(r, f, before);
      var m, mid := f.db.messages, FoldChats(f, r, before).db.messages;
      var pn := r(c.jid);
      if pn != "" {
        assert c in list && LikeLid(c.jid);
        MoveChatContents(mid, c.jid, pn);
        var m' := MoveChat(mid, c.jid, pn);
        forall k' | k' in m'
          ensures exists k :: k in m && CanonKey(r, k) == CanonKey(r, k') && m'[k'] == m[k]
        {
          var k1 := if k' in mid then k' else Key(c.jid, k'.id);
          assert k1 in mid && CanonKey(r, k1) == CanonKey(r, k') && m'[k'] == mid[k1];
          var k :| k in m && CanonKey(r, k) == CanonKey(r, k1) && mid[k1] == m[k];
        }
      }
    }
  }

  /* ----- the sender, contact and call passes ----- */

  function Renamed(r: Resolver, list: seq<string>, jid: string): string {
    if jid in list && r(BareLID(jid)) != "" then r(BareLID(jid)) else jid
  }

  function RenameSenders(m: map<Key, Message>, r: Resolver, list: seq<string>): map<Key, Message> {
    map k | k in m :: m[k].(senderJID := Renamed(r, list, m[k].senderJID))
  }

  function RenamePeers(calls: map<string, Call>, r: Resolver, list: seq<string>): map<string, Call> {
    map id | id in calls :: calls[id].(peerJID := Renamed(r, list, calls[id].peerJID))
  }

  // Renaming one more address touches only those that carried it from the start.
  lemma RenamedStep(r: Resolver, before: seq<string>, next: string, jid: string)
    requires Sound(r) && LikeLid(next) && next !in before
    ensures var pn := r(BareLID(next));
            Renamed(r, before + [next], jid) ==
            if pn != "" && Renamed(r, before, jid) == next then pn else Renamed(r, before, jid)
  {
  }

  lemma RenameOneSender(m: map<Key, Message>, r: Resolver, before: seq<string>, next: string, k: Key)
    requires Sound(r) && LikeLid(next) && next !in before && k in m
    ensures var pn := r(BareLID(next));
            RenameSenders(m, r, before + [next])[k] ==
            (if pn != "" then RenameSender(RenameSenders(m, r, before), next, pn) else RenameSenders(m, r, before))[k]
  {
    RenamedStep(r, before, next, m[k].senderJID);
  }

  lemma RenameSendersStep(m: map<Key, Message>, r: Resolver, before: seq<string>, next: string)
    requires Sound(r) && LikeLid(next) && next !in before
    ensures var pn := r(BareLID(next));
            RenameSenders(m, r, before + [next]) ==
            if pn != "" then RenameSender(RenameSenders(m, r, before), next, pn) else RenameSenders(m, r, before)
  {
    forall k | k in m {
      RenameOneSender(m, r, before, next, k);
    }
  }

  lemma RenameOnePeer(calls: map<string, Call>, r: Resolver, before: seq<string>, next: string, id: string)
    requires Sound(r) && LikeLid(next) && next !in before && id in calls
    ensures var pn := r(BareLID(next));
            RenamePeers(calls, r, before + [next])[id] ==
            (if pn != "" then RenamePeer(RenamePeers(calls, r, before), next, pn)
             else RenamePeers(calls, r, before))[id]
  {
    RenamedStep(r, before, next, calls[id].peerJID);
  }

  lemma RenamePeersStep(calls: map<string, Call>, r: Resolver, before: seq<string>, next: string)
    requires Sound(r) && LikeLid(next) && next !in before
    ensures var pn := r(BareLID(next));
            RenamePeers(calls, r, before + [next]) ==
            if pn != "" then RenamePeer(RenamePeers(calls, r, before), next, pn) else RenamePeers(calls, r, before)
  {
    forall id | id in calls {
      RenameOnePeer(calls, r, before, next, id);
    }
  }

  lemma {:induction false} SendersPass(f: Folded, r: Resolver, list: seq<string>)
    requires Sound(r) && (forall s :: s in list ==> LikeLid(s))
    requires forall i, j :: 0 <= i < j < |list| ==> list[i] != list[j]
    ensures FoldSenders(f, r, list).db.messages == RenameSenders(f.db.messages, r, list)
    ensures FoldSenders(f, r, list).db ==
            f.db.(messages := FoldSenders(f, r, list).db.messages, lidMap := FoldSenders(f, r, list).db.lidMap)
  {
    if list == [] {
      assert RenameSenders(f.db.messages, r, list) == f.db.messages;
    } else {
      var before, next := list[..|list| - 1], list[|list| - 1];
      assert list == before + [next] && next in list;
      SendersPass(f, r, before);
      RenameSendersStep(f.db.messages, r, before, next);
    }
  }

  lemma {:induction false} PeersPass(f: Folded, r: Resolver, list: seq<string>)
    requires Sound(r) && (forall p :: p in list ==> LikeLid(p))
    requires forall i, j :: 0 <= i < j < |list| ==> list[i] != list[j]
    ensures FoldPeers(f, r, list).db == f.db.(calls := RenamePeers(f.db.calls, r, list))
  {
    if list == [] {
      assert RenamePeers(f.db.calls, r, list) == f.db.calls;
    } else {
      var before, next := list[..|list| - 1], list[|list| - 1];
      assert list == before + [next] && next in list;
      PeersPass(f, r, before);
      RenamePeersStep(f.db.calls, r, before, next);
    }
  }

  // The contact pass so far: it removed exactly the listed rows it could resolve,
  // and a named address is still named under its canonical one.
  ghost predicate ContactPassKeeps(r: Resolver, list: seq<LidContact>,
                                   was: map<string, Contact>, now: map<string, Contact>) {
    && (forall jid :: LikeLid(jid) && jid in now ==> jid in was && now[jid] == was[jid])
    && (forall jid :: LikeLid(jid) && jid in was && jid !in now ==> r(jid) != "")
    && (forall c :: c in list ==> LikeLid(c.jid) && (r(c.jid) != "" ==> c.jid !in now))
    && (forall c :: c in list && r(c.jid) != "" && ContactName(c.row) != "" ==> NameOn(now, r(c.jid)) != "")
    && (forall jid :: !LikeLid(jid) && NameOn(was, jid) != "" ==> NameOn(now, jid) != "")
  }

  lemma ContactStepKeeps(r: Resolver, list: seq<LidContact>,
                         was: map<string, Contact>, mid: map<string, Contact>, c: LidContact)
    requires Sound(r) && ContactPassKeeps(r, list, was, mid)
    requires LikeLid(c.jid) && c.jid in mid && mid[c.jid] == c.row && r(c.jid) != ""
    ensures ContactPassKeeps(r, list + [c], was, MergeContact(mid, c.row, r(c.jid)) - {c.jid})
  {
    var now := MergeContact(mid, c.row, r(c.jid)) - {c.jid};
    MergeKeepsNames(mid, c.row, r(c.jid));
    MergeMovesName(mid, c, r(c.jid));
    assert !LikeLid(r(c.jid));
    forall d | d in list + [c]
      ensures LikeLid(d.jid)
      ensures r(d.jid) != "" ==> d.jid !in now && (ContactName(d.row) != "" ==> NameOn(now, r(d.jid)) != "")
    {
      if d in list {
        assert r(d.jid) != "" ==> !LikeLid(r(d.jid)) && d.jid !in mid;
      }
    }
  }

  // The removed row's name is on the phone contact, and no other row loses its own.
  lemma MergeMovesName(mid: map<string, Contact>, c: LidContact, pn: string)
    requires pn != c.jid
    ensures var now := MergeContact(mid, c.row, pn) - {c.jid};
            (forall jid :: jid != c.jid && NameOn(mid, jid) != "" ==> NameOn(now, jid) != "") &&
            (ContactName(c.row) != "" ==> NameOn(now, pn) != "")
  {
    MergeKeepsNames(mid, c.row, pn);
  }

  lemma ContactSkipKeeps(r: Resolver, list: seq<LidContact>,
                         was: map<string, Contact>, mid: map<string, Contact>, c: LidContact)
    requires ContactPassKeeps(r, list, was, mid) && LikeLid(c.jid) && r(c.jid) == ""
    ensures ContactPassKeeps(r, list + [c], was, mid)
  {
  }

  lemma {:induction false} ContactsPass(f: Folded, r: Resolver, list: seq<LidContact>)
    requires Sound(r)
    requires ListsContacts(list, f.db.contacts)
    ensures ContactPassKeeps(r, list, f.db.contacts, FoldContacts(f, r, list).db.contacts)
    ensures FoldContacts(f, r, list).db == f.db.(contacts := FoldContacts(f, r, list).db.contacts)
  {
    if list != [] {
      var before, c := list[..|list| - 1], list[|list| - 1];
      LastListedContact(list, f.db.contacts);
      ContactsPass(f, r, before);
      UnlistedContactStays(f, r, before, c.jid);
      ContactStep(FoldContacts(f, r, before), r, list, f.db.contacts);
    }
  }

  lemma LastListedContact(list: seq<LidContact>, contacts: map<string, Contact>)
    requires ListsContacts(list, contacts) && list != []
    ensures var before, c := list[..|list| - 1], list[|list| - 1];
            ListsContacts(before, contacts) && (forall i :: 0 <= i < |before| ==> before[i].jid != c.jid) &&
            LikeLid(c.jid) && c.jid in contacts && contacts[c.jid] == c.row
  {
  }

  lemma {:induction false} UnlistedContactStays(f: Folded, r: Resolver, list: seq<LidContact>, jid: string)
    requires Sound(r) && LikeLid(jid) && jid in f.db.contacts
    requires forall i :: 0 <= i < |list| ==> list[i].jid != jid
    ensures jid in FoldContacts(f, r, list).db.contacts
    ensures FoldContacts(f, r, list).db.contacts[jid] == f.db.contacts[jid]
  {
    if list != [] {
      UnlistedContactStays(f, r, list[..|list| - 1], jid);
    }
  }

  lemma ContactStep(f: Folded, r: Resolver, list: seq<LidContact>, was: map<string, Contact>)
    requires Sound(r) && list != [] && ContactPassKeeps(r, list[..|list| - 1], was, f.db.contacts)
    requires var c := list[|list| - 1]; LikeLid(c.jid) && c.jid in f.db.contacts && f.db.contacts[c.jid] == c.row
    ensures var c := list[|list| - 1];
            ContactPassKeeps(r, list, was, FoldContact(f, r, c).db.contacts) &&
            FoldContact(f, r, c).db == f.db.(contacts := FoldContact(f, r, c).db.contacts)
  {
    var before, c := list[..|list| - 1], list[|list| - 1];
    assert list == before + [c];
    assert r(BareLID(c.jid)) == r(c.jid);
    if r(c.jid) != "" {
      ContactStepKeeps(r, before, was, f.db.contacts, c);
      MergeKeepsNames(f.db.contacts, c.row, r(c.jid));
    } else {
      ContactSkipKeeps(r, before, was, f.db.contacts, c);
    }
  }

  lemma MergeKeepsNames(contacts: map<string, Contact>, c: Contact, pn: string)
    ensures forall jid :: NameOn(contacts, jid) != "" ==> NameOn(MergeContact(contacts, c, pn), jid) != ""
    ensures ContactName(c) != "" ==> NameOn(MergeContact(contacts, c, pn), pn) != ""
    ensures forall jid :: jid != pn ==> (jid in contacts <==> jid in MergeContact(contacts, c, pn))
    ensures forall jid :: jid != pn && jid in contacts ==> MergeContact(contacts, c, pn)[jid] == contacts[jid]
  {
  }
}
