/** The store object: ingest, the LID fold and the stub pruning run in place on
the tables, and three row triggers keep the full-text index beside them. */
module Store {
  import opened Tables
  import opened Fold

  /* ----- the full-text index ----- */

  // The index maps exactly the live rowids to their current text; `owner` says which row has each rowid.
  ghost predicate IndexAgrees(m: map<Key, Message>, index: map<int, string>, owner: map<int, Key>) {
    && (forall k :: k in m ==> m[k].rowid in owner && owner[m[k].rowid] == k)
    && (forall rid :: rid in owner ==> owner[rid] in m && m[owner[rid]].rowid == rid &&
                                       rid in index && index[rid] == m[owner[rid]].content.text)
    && index.Keys == owner.Keys
  }

  // The rowids a full-text query selects, for whatever texts it matches.
  function Lookup(index: map<int, string>, matches: string -> bool): set<int> {
    set rid | rid in index && matches(index[rid])
  }

  // A lookup in the index finds exactly what a scan of the table would, and each rowid is one message.
  lemma LookupEqualsScan(m: map<Key, Message>, index: map<int, string>, owner: map<int, Key>, matches: string -> bool)
    requires IndexAgrees(m, index, owner)
    ensures Lookup(index, matches) == set k | k in m && matches(m[k].content.text) :: m[k].rowid
    ensures forall k, k' :: k in m && k' in m && m[k].rowid == m[k'].rowid ==> k == k'
  {
    forall rid | rid in Lookup(index, matches)
      ensures exists k :: k in m && matches(m[k].content.text) && m[k].rowid == rid
    {
      assert owner[rid] in m;
    }
  }

  /* ----- pruning ----- */

  predicate IsStub(m: Message) {
    m.content.kind == "other" && m.content.text == "" && m.content.mediaRef.None?
  }

  function WithoutStubs(m: map<Key, Message>): map<Key, Message> {
    map k | k in m && !IsStub(m[k]) :: m[k]
  }

  predicate HasMessage(m: map<Key, Message>, jid: string) {
    exists k :: k in m && k.chatJID == jid
  }

  // A LID direct chat with nothing in it.
  predicate IsPhantom(chats: map<string, Chat>, m: map<Key, Message>, jid: string)
    requires jid in chats
  {
    LikeLid(jid) && !chats[jid].isGroup && !HasMessage(m, jid)
  }

  function Prune(db: Db): Db {
    var m := WithoutStubs(db.messages);
    db.(messages := m, chats := map j | j in db.chats && !IsPhantom(db.chats, m, j) :: db.chats[j])
  }

  // What goes: a row of kind "other" with neither text nor media, and a LID direct chat left without a row.
  lemma PrunedIff(db: Db)
    ensures forall k :: k in db.messages ==>
              (k !in Prune(db).messages <==>
                 db.messages[k].content.kind == "other" && |db.messages[k].content.text| == 0 &&
                 !db.messages[k].content.mediaRef.Some?)
    ensures forall j :: j in db.chats ==>
              (j !in Prune(db).chats <==>
                 LikeLid(j) && !db.chats[j].isGroup && forall k :: k in Prune(db).messages ==> k.chatJID != j)
    ensures Prune(db).messages.Keys <= db.messages.Keys && Prune(db).chats.Keys <= db.chats.Keys
  {
  }

  // Pruning takes nothing a reader could use, never orphans a message, and is done after one run.
  lemma PruneKeepsContent(db: Db)
    requires HasChatRows(db)
    ensures HasChatRows(Prune(db)) && Prune(Prune(db)) == Prune(db)
    ensures Bounds(db) ==> Bounds(Prune(db))
    ensures forall k ::
              (k in db.messages && (db.messages[k].content.text != "" || db.messages[k].content.mediaRef.Some?)) ==>
              k in Prune(db).messages && Prune(db).messages[k] == db.messages[k]
    ensures forall j :: j in db.chats && (!LikeLid(j) || db.chats[j].isGroup || HasMessage(Prune(db).messages, j)) ==>
              j in Prune(db).chats && Prune(db).chats[j] == db.chats[j]
  {
  }

  /* ----- the object ----- */

  class MessageStore {
    var chats: map<string, Chat>
    var messages: map<Key, Message>
    var contacts: map<string, Contact>
    var calls: map<string, Call>
    var lidMap: map<string, string>
    var index: map<int, string>
    ghost var owner: map<int, Key>

    function Tables(): Db
      reads this
    {
      Db(chats, messages, contacts, calls, lidMap)
    }

    ghost predicate Valid()
      reads this`messages, this`index, this`owner
    {
      IndexAgrees(messages, index, owner)
    }

    constructor ()
      ensures Valid() && Tables() == EMPTY
    {
      chats, messages, contacts, calls, lidMap := map[], map[], map[], map[], map[];
      index, owner := map[], map[];
    }

    /* --- one row, with its trigger --- */

    method InsertRow(k: Key, row: Message)
      requires Valid() && k !in messages && row.rowid !in index
      modifies this`messages, this`index, this`owner
      ensures Valid() && messages == old(messages)[k := row]
    {
      messages := messages[k := row];
      index := index[row.rowid := row.content.text];
      owner := owner[row.rowid := k];
    }

    method UpdateRow(k: Key, row: Message)
      requires Valid() && k in messages && row.rowid == messages[k].rowid
      modifies this`messages, this`index, this`owner
      ensures Valid() && messages == old(messages)[k := row]
    {
      index := index - {messages[k].rowid};
      messages := messages[k := row];
      index := index[row.rowid := row.content.text];
    }

    // The row moves to a new key; the trigger takes its text out and puts it back.
    method RekeyRow(k: Key, to: Key)
      requires Valid() && k in messages && to !in messages
      modifies this`messages, this`index, this`owner
      ensures Valid() && messages == (old(messages) - {k})[to := old(messages)[k]]
    {
      var row := messages[k];
      messages := (messages - {k})[to := row];
      index := (index - {row.rowid})[row.rowid := row.content.text];
      owner := owner[row.rowid := to];
    }

    method DeleteRow(k: Key)
      requires Valid() && k in messages
      modifies this`messages, this`index, this`owner
      ensures Valid() && messages == old(messages) - {k}
    {
      index := index - {messages[k].rowid};
      owner := owner - {messages[k].rowid};
      messages := messages - {k};
    }

    /* --- one statement over several rows, each with its trigger --- */

    method ChangeRow(ghost was: map<Key, Message>, ghost done: set<Key>, k: Key, change: Message -> Message)
      requires Valid() && messages == Changed(was, done, change) && k in was && k !in done
      requires forall m :: change(m).rowid == m.rowid
      modifies this`messages, this`index, this`owner
      ensures Valid() && messages == Changed(was, done + {k}, change)
    {
      ChangedStep(was, done, k, change);
      UpdateRow(k, change(messages[k]));
    }

    method UpdateRows(hit: set<Key>, change: Message -> Message)
      requires Valid() && hit <= messages.Keys && forall m :: change(m).rowid == m.rowid
      modifies this`messages, this`index, this`owner
      ensures Valid() && messages == Changed(old(messages), hit, change)
    {
      var todo := hit;
      ghost var was, done: set<Key> := messages, {};
      ChangedNone(was, change);
      while todo != {}
        invariant Valid() && Split(hit, todo, done) && messages == Changed(was, done, change)
        decreases |todo|
      {
        var k :| k in todo;
        SplitStep(hit, todo, done, k);
        ChangeRow(was, done, k, change);
        todo, done := todo - {k}, done + {k};
      }
      assert done == hit;
    }

    method DeleteRows(hit: set<Key>)
      requires Valid() && hit <= messages.Keys
      modifies this`messages, this`index, this`owner
      ensures Valid() && messages == old(messages) - hit
    {
      var todo := hit;
      ghost var was, done := messages, {};
      while todo != {}
        invariant Valid() && Split(hit, todo, done) && messages == was - done
        decreases |todo|
      {
        var k :| k in todo;
        SplitStep(hit, todo, done, k);
        DeleteRow(k);
        todo, done := todo - {k}, done + {k};
      }
    }

    /* --- ingest --- */

    method UpsertChatRow(jid: string, name: string, isGroup: bool, at: int)
      requires Valid()
      modifies this`chats
      ensures Valid() && Tables() == UpsertChat(old(Tables()), jid, name, isGroup, at)
    {
      if jid in chats {
        var was := chats[jid];
        var shown := if name != "" then name else was.name;
        chats := chats[jid := Chat(shown, isGroup, was.archived, Max(was.lastMessageAt, at))];
      } else {
        chats := chats[jid := Chat(name, isGroup, false, at)];
      }
    }

    // A new row takes a rowid no live row has.
    method UpsertMessageRow(key: Key, sender: string, content: Content, rowid: int)
      requires Valid() && (key in messages || rowid !in index)
      modifies this`chats, this`messages, this`index, this`owner
      ensures Valid() && Tables() == UpsertMessage(old(Tables()), key, sender, content, rowid)
    {
      if key in messages {
        UpdateRow(key, messages[key].(senderJID := sender, content := content));
      } else {
        InsertRow(key, Message(rowid, sender, content, 0));
      }
      if key.chatJID in chats {
        var was := chats[key.chatJID];
        chats := chats[key.chatJID := was.(lastMessageAt := Max(was.lastMessageAt, content.ts))];
      }
    }

    method UpsertContactRow(jid: string, c: Contact)
      requires Valid()
      modifies this`contacts
      ensures Valid() && Tables() == UpsertContact(old(Tables()), jid, c)
    {
      if jid in contacts {
        var was := contacts[jid];
        contacts := contacts[jid := Contact(
          if c.phone != "" then c.phone else was.phone,
          if c.pushName != "" then c.pushName else was.pushName,
          if c.fullName != "" then c.fullName else was.fullName,
          if c.businessName != "" then c.businessName else was.businessName)];
      } else {
        contacts := contacts[jid := c];
      }
    }

    method UpsertMapping(lid: string, pn: string)
      requires Valid()
      modifies this`lidMap
      ensures Valid() && Tables() == UpsertLIDMapping(old(Tables()), lid, pn)
    {
      if lid == "" || pn == "" {
        return;
      }
      lidMap := lidMap[lid := pn];
    }

    method MarkReadRows(chatJID: string, ids: seq<string>, readAt: int)
      requires Valid()
      modifies this`messages, this`index, this`owner
      ensures Valid() && Tables() == MarkRead(old(Tables()), chatJID, ids, readAt)
    {
      if |ids| == 0 {
        assert messages == MarkRows(messages, chatJID, ids, readAt);
        return;
      }
      var hit := set k | k in messages && MarkHits(k, chatJID, ids);
      var change := (m: Message) => ReadBy(m, readAt);
      ghost var was := messages;
      UpdateRows(hit, change);
      assert Changed(was, hit, change) == MarkRows(was, chatJID, ids, readAt);
    }


    /* --- statements of the fold --- */

    method RekeyOrIgnoreRows(from: string, to: string) returns (moved: nat)
      requires Valid()
      modifies this`messages, this`index, this`owner
      ensures Valid() && messages == RekeyOrIgnore(old(messages), from, to)
      ensures moved == |set k | k in old(messages) && Moves(old(messages), from, to, k)|
    {
      var all := set k | k in messages && Moves(messages, from, to, k);
      var todo := all;
      ghost var was, done := messages, {};
      moved := 0;
      while todo != {}
        invariant Valid() && Split(all, todo, done) && moved == |all| - |todo|
        invariant Rekeyed(was, messages, from, to, done)
        decreases |todo|
      {
        var k :| k in todo;
        RekeyStep(was, messages, from, to, done, k);
        SplitStep(all, todo, done, k);
        RekeyRow(k, Key(to, k.id));
        todo, done := todo - {k}, done + {k};
        moved := moved + 1;
      }
      RekeyedAll(was, messages, from, to, all);
    }

    method DeleteChatRows(chat: string)
      requires Valid()
      modifies this`messages, this`index, this`owner
      ensures Valid() && messages == DeleteChat(old(messages), chat)
    {
      DeleteRows(set k | k in messages && k.chatJID == chat);
    }

    method RenameSenderRows(from: string, to: string) returns (renamed: nat)
      requires Valid()
      modifies this`messages, this`index, this`owner
      ensures Valid() && messages == RenameSender(old(messages), from, to)
      ensures renamed == |set k | k in old(messages) && old(messages)[k].senderJID == from|
    {
      var hit := set k | k in messages && messages[k].senderJID == from;
      renamed := |hit|;
      var change := (m: Message) => m.(senderJID := to);
      ghost var was := messages;
      UpdateRows(hit, change);
      assert Changed(was, hit, change) == RenameSender(was, from, to);
    }

    /* --- the fold --- */

    method SelectLidChats() returns (list: seq<LidChat>)
      ensures ScansChats(list, chats)
    {
      list := [];
      var todo := set j | j in chats && LikeLid(j);
      while todo != {}
        invariant todo <= chats.Keys && forall j :: j in todo ==> LikeLid(j)
        invariant forall i, j :: 0 <= i < j < |list| ==> list[i].jid != list[j].jid
        invariant forall c :: c in list ==> LikeLid(c.jid) && c.jid in chats && chats[c.jid] == c.row && c.jid !in todo
        invariant forall j :: j in chats && LikeLid(j) ==> j in todo || LidChat(j, chats[j]) in list
        decreases |todo|
      {
        var j :| j in todo;
        list := list + [LidChat(j, chats[j])];
        todo := todo - {j};
      }
    }

    method SelectLidContacts() returns (list: seq<LidContact>)
      ensures ScansContacts(list, contacts)
    {
      list := [];
      var todo := set j | j in contacts && LikeLid(j);
      while todo != {}
        invariant todo <= contacts.Keys && forall j :: j in todo ==> LikeLid(j)
        invariant forall i, j :: 0 <= i < j < |list| ==> list[i].jid != list[j].jid
        invariant forall c :: c in list ==>
          LikeLid(c.jid) && c.jid in contacts && contacts[c.jid] == c.row && c.jid !in todo
        invariant forall j :: j in contacts && LikeLid(j) ==> j in todo || LidContact(j, contacts[j]) in list
        decreases |todo|
      {
        var j :| j in todo;
        list := list + [LidContact(j, contacts[j])];
        todo := todo - {j};
      }
    }

    method SelectLidSenders() returns (list: seq<string>)
      ensures ScansSenders(list, messages)
    {
      list := DistinctStrings(set k | k in messages && LikeLid(messages[k].senderJID) :: messages[k].senderJID);
    }

    method SelectLidPeers() returns (list: seq<string>)
      ensures ScansPeers(list, calls)
    {
      list := DistinctStrings(set id | id in calls && LikeLid(calls[id].peerJID) :: calls[id].peerJID);
    }

    method MergeChatRow(c: Chat, pn: string)
      modifies this`chats
      ensures chats == MergeChat(old(chats), c, pn)
    {
      if pn in chats {
        var was := chats[pn];
        chats := chats[pn := was.(name := if was.name != "" then was.name else c.name,
                                  lastMessageAt := Max(was.lastMessageAt, c.lastMessageAt))];
      } else {
        chats := chats[pn := Chat(c.name, false, c.archived, c.lastMessageAt)];
      }
    }

    method FoldOneChat(c: LidChat, pn: string, before: Stats) returns (stats: Stats)
      requires Valid() && pn != ""
      modifies this`chats, this`messages, this`lidMap, this`index, this`owner
      ensures Valid()
      ensures Folded(Tables(), stats) == FoldChat(Folded(old(Tables()), before), _ => pn, c)
    {
      MergeChatRow(c.row, pn);
      var moved := RekeyOrIgnoreRows(c.jid, pn);
      DeleteChatRows(c.jid);
      chats := chats - {c.jid};
      lidMap := lidMap[c.jid := pn];
      stats := before.(chats := before.chats + 1, messages := before.messages + moved);
    }

    method MergeContactRow(c: Contact, pn: string)
      modifies this`contacts
      ensures contacts == MergeContact(old(contacts), c, pn)
    {
      if pn in contacts {
        var was := contacts[pn];
        contacts := contacts[pn := Contact(
          if was.phone != "" then was.phone else PhoneDigits(pn),
          if was.pushName != "" then was.pushName else c.pushName,
          if was.fullName != "" then was.fullName else c.fullName,
          if was.businessName != "" then was.businessName else c.businessName)];
      } else {
        contacts := contacts[pn := Contact(PhoneDigits(pn), c.pushName, c.fullName, c.businessName)];
      }
    }

    method FoldLIDChats(resolve: Resolver) returns (stats: Stats, list: seq<LidChat>)
      requires Valid()
      modifies this`chats, this`messages, this`lidMap, this`index, this`owner
      ensures Valid() && ScansChats(list, old(chats))
      ensures Folded(Tables(), stats) == FoldChats(Folded(old(Tables()), NOTHING), resolve, list)
    {
      stats := NOTHING;
      list := SelectLidChats();
      for i := 0 to |list|
        invariant Valid() && contacts == old(contacts) && calls == old(calls)
        invariant Folded(Tables(), stats) == FoldChats(Folded(old(Tables()), NOTHING), resolve, list[..i])
      {
        assert list[..i + 1][..i] == list[..i];
        var c := list[i];
        var pn := resolve(c.jid);
        if pn == "" {
          continue;
        }
        stats := FoldOneChat(c, pn, stats);
      }
      assert list[..|list|] == list;
    }

    method FoldOneSender(resolve: Resolver, sender: string, before: Stats) returns (stats: Stats)
      requires Valid()
      modifies this`messages, this`lidMap, this`index, this`owner
      ensures Valid()
      ensures Folded(Tables(), stats) == FoldSender(Folded(old(Tables()), before), resolve, sender)
    {
      var bare := BareLID(sender);
      var pn := resolve(bare);
      if pn == "" {
        return before;
      }
      var renamed := RenameSenderRows(sender, pn);
      stats := before.(messages := before.messages + renamed);
      lidMap := lidMap[sender := pn][bare := pn];
    }

    method FoldLIDSenders(resolve: Resolver, before: Stats) returns (stats: Stats, list: seq<string>)
      requires Valid()
      modifies this`messages, this`lidMap, this`index, this`owner
      ensures Valid() && ScansSenders(list, old(messages))
      ensures Folded(Tables(), stats) == FoldSenders(Folded(old(Tables()), before), resolve, list)
    {
      stats := before;
      list := SelectLidSenders();
      for i := 0 to |list|
        invariant Valid() && chats == old(chats) && contacts == old(contacts) && calls == old(calls)
        invariant Folded(Tables(), stats) == FoldSenders(Folded(old(Tables()), before), resolve, list[..i])
      {
        assert list[..i + 1][..i] == list[..i];
        stats := FoldOneSender(resolve, list[i], stats);
      }
      assert list[..|list|] == list;
    }

    method FoldLIDContacts(resolve: Resolver, before: Stats) returns (stats: Stats, list: seq<LidContact>)
      modifies this`contacts
      ensures ScansContacts(list, old(contacts))
      ensures Folded(Tables(), stats) == FoldContacts(Folded(old(Tables()), before), resolve, list)
    {
      list := SelectLidContacts();
      stats := FoldContactList(resolve, before, list);
    }

    method FoldContactList(resolve: Resolver, before: Stats, list: seq<LidContact>) returns (stats: Stats)
      modifies this`contacts
      ensures Folded(Tables(), stats) == FoldContacts(Folded(old(Tables()), before), resolve, list)
    {
      stats := before;
      for i := 0 to |list|
        invariant Folded(Tables(), stats) == FoldContacts(Folded(old(Tables()), before), resolve, list[..i])
      {
        assert list[..i + 1][..i] == list[..i];
        var c := list[i];
        var pn := resolve(BareLID(c.jid));
        if pn == "" {
          continue;
        }
        MergeContactRow(c.row, pn);
        contacts := contacts - {c.jid};
        stats := stats.(contacts := stats.contacts + 1);
      }
      assert list[..|list|] == list;
    }

    method FoldOnePeer(resolve: Resolver, peer: string, before: Stats) returns (stats: Stats)
      modifies this`calls
      ensures Folded(Tables(), stats) == FoldPeer(Folded(old(Tables()), before), resolve, peer)
    {
      var pn := resolve(BareLID(peer));
      if pn == "" {
        return before;
      }
      stats := before.(calls := before.calls + |set id | id in calls && calls[id].peerJID == peer|);
      calls := RenamePeer(calls, peer, pn);
    }

    method FoldLIDCalls(resolve: Resolver, before: Stats) returns (stats: Stats, list: seq<string>)
      modifies this`calls
      ensures ScansPeers(list, old(calls))
      ensures Folded(Tables(), stats) == FoldPeers(Folded(old(Tables()), before), resolve, list)
    {
      stats := before;
      list := SelectLidPeers();
      for i := 0 to |list|
        invariant Folded(Tables(), stats) == FoldPeers(Folded(old(Tables()), before), resolve, list[..i])
      {
        assert list[..i + 1][..i] == list[..i];
        stats := FoldOnePeer(resolve, list[i], stats);
      }
      assert list[..|list|] == list;
    }

    // One transaction: the four passes in order, with whatever scans the database returned.
    method Fold(resolve: Resolver) returns (stats: Stats, scan: Scan)
      requires Valid()
      modifies this
      ensures Valid() && Scans(old(Tables()), resolve, scan)
      ensures Folded(Tables(), stats) == FoldLIDs(old(Tables()), resolve, scan)
    {
      var chatList, senderList, contactList, peerList;
      stats, chatList := FoldLIDChats(resolve);
      stats, senderList := FoldLIDSenders(resolve, stats);
      stats, contactList := FoldLIDContacts(resolve, stats);
      stats, peerList := FoldLIDCalls(resolve, stats);
      scan := Scan(chatList, senderList, contactList, peerList);
    }

    /* --- pruning --- */

    method DeleteStubRows() returns (deleted: nat)
      requires Valid()
      modifies this`messages, this`index, this`owner
      ensures Valid() && messages == WithoutStubs(old(messages))
      ensures deleted == |set k | k in old(messages) && IsStub(old(messages)[k])|
    {
      var stubs := set k | k in messages && IsStub(messages[k]);
      deleted := |stubs|;
      DeleteRows(stubs);
    }

    method DeletePhantomChats() returns (deleted: nat)
      modifies this`chats
      ensures chats == map j | j in old(chats) && !IsPhantom(old(chats), messages, j) :: old(chats)[j]
      ensures deleted == |set j | j in old(chats) && IsPhantom(old(chats), messages, j)|
    {
      var phantoms := set j | j in chats && IsPhantom(chats, messages, j);
      deleted := |phantoms|;
      chats := chats - phantoms;
    }

    // Stubs first, so that the chats they leave empty go too; both counts are reported.
    method PruneStubMessages() returns (pruned: nat, phantoms: nat)
      requires Valid()
      modifies this
      ensures Valid() && Tables() == Prune(old(Tables()))
      ensures pruned == |set k | k in old(messages) && IsStub(old(messages)[k])|
      ensures phantoms == |set j | j in old(chats) && IsPhantom(old(chats), WithoutStubs(old(messages)), j)|
    {
      pruned := DeleteStubRows();
      phantoms := DeletePhantomChats();
    }
  }

  method DistinctStrings(s: set<string>) returns (list: seq<string>)
    ensures forall i, j :: 0 <= i < j < |list| ==> list[i] != list[j]
    ensures forall x :: x in list <==> x in s
  {
    list := [];
    var todo := s;
    while todo != {}
      invariant todo <= s
      invariant forall i, j :: 0 <= i < j < |list| ==> list[i] != list[j]
      invariant forall x :: x in list <==> x in s && x !in todo
      decreases |todo|
    {
      var x :| x in todo;
      list := list + [x];
      todo := todo - {x};
    }
  }

  // What a statement hits is what it has done and what it has still to do.
  ghost predicate Split(all: set<Key>, todo: set<Key>, done: set<Key>) {
    todo <= all && done == all - todo
  }

  lemma SplitStep(all: set<Key>, todo: set<Key>, done: set<Key>, k: Key)
    requires Split(all, todo, done) && k in todo
    ensures k !in done && Split(all, todo - {k}, done + {k})
  {
  }

  // The table with some rows changed.
  function Changed(m: map<Key, Message>, hit: set<Key>, change: Message -> Message): map<Key, Message> {
    map k | k in m :: if k in hit then change(m[k]) else m[k]
  }

  lemma ChangedNone(m: map<Key, Message>, change: Message -> Message)
    ensures Changed(m, {}, change) == m
  {
  }

  lemma ChangedStep(m: map<Key, Message>, done: set<Key>, k: Key, change: Message -> Message)
    requires k in m && k !in done
    ensures Changed(m, done, change)[k] == m[k]
    ensures Changed(m, done + {k}, change) == Changed(m, done, change)[k := change(m[k])]
  {
  }

  /* ----- UPDATE OR IGNORE, row by row ----- */

  // The rows in `done` have moved, the others have not.
  ghost predicate Rekeyed(was: map<Key, Message>, now: map<Key, Message>, from: string, to: string, done: set<Key>) {
    && (forall k :: k in done ==> k in was && Moves(was, from, to, k))
    && (forall k :: k in now <==> (k in was && k !in done) || (k.chatJID == to && Key(from, k.id) in done))
    && (forall k :: k in now ==> now[k] == if k in was then was[k] else was[Key(from, k.id)])
  }

  lemma RekeyStep(was: map<Key, Message>, now: map<Key, Message>, from: string, to: string, done: set<Key>, k: Key)
    requires Rekeyed(was, now, from, to, done) && k in was && Moves(was, from, to, k) && k !in done
    ensures k in now && Key(to, k.id) !in now
    ensures Rekeyed(was, (now - {k})[Key(to, k.id) := now[k]], from, to, done + {k})
  {
  }

  lemma RekeyedAll(was: map<Key, Message>, now: map<Key, Message>, from: string, to: string, all: set<Key>)
    requires Rekeyed(was, now, from, to, all) && all == set k | k in was && Moves(was, from, to, k)
    ensures now == RekeyOrIgnore(was, from, to)
  {
  }
}
