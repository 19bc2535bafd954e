/** Grouping read receipts by the sender of each message. */
module ReadReceipts {
  import opened Tables

  datatype Group = Group(sender: string, ids: seq<string>)

  datatype Grouping = NotFound(id: string) | Grouped(groups: seq<Group>)

  // Each message's author, where the message is known.
  type Authors = map<string, string>

  function IdsOf(authors: Authors, ids: seq<string>, sender: string): seq<string> {
    if ids == [] then []
    else
      var last := ids[|ids| - 1];
      IdsOf(authors, ids[..|ids| - 1], sender) +
      if last in authors && authors[last] == sender then [last] else []
  }

  // The distinct senders, in order of first appearance.
  function Senders(authors: Authors, ids: seq<string>): seq<string> {
    if ids == [] then []
    else
      var last, before := ids[|ids| - 1], Senders(authors, ids[..|ids| - 1]);
      if last in authors && authors[last] !in before then before + [authors[last]] else before
  }

  // Senders come in the order their first message does, none twice and none missing.
  lemma {:induction false} SendersInOrder(authors: Authors, ids: seq<string>)
    ensures forall i, j :: 0 <= i < j < |Senders(authors, ids)| ==> Senders(authors, ids)[i] != Senders(authors, ids)[j]
    ensures forall s :: s in Senders(authors, ids) <==>
              exists k :: 0 <= k < |ids| && ids[k] in authors && authors[ids[k]] == s
  {
    if ids != [] {
      SendersInOrder(authors, ids[..|ids| - 1]);
      assert forall k :: 0 <= k < |ids| - 1 ==> ids[..|ids| - 1][k] == ids[k];
    }
  }

  lemma {:induction false} SenderOrderFollowsIds(authors: Authors, ids: seq<string>, n: nat)
    requires n <= |ids|
    ensures Senders(authors, ids[..n]) <= Senders(authors, ids)
  {
    if n < |ids| {
      SenderOrderFollowsIds(authors, ids[..|ids| - 1], n);
      assert ids[..|ids| - 1][..n] == ids[..n];
    } else {
      assert ids[..n] == ids;
    }
  }

  // Each id is in exactly the group of its author, as often as it was given.
  lemma {:induction false} IdsOfIsTheFilter(authors: Authors, ids: seq<string>, sender: string)
    ensures forall id :: multiset(IdsOf(authors, ids, sender))[id] ==
                         if id in authors && authors[id] == sender then multiset(ids)[id] else 0
  {
    if ids != [] {
      var before, last := ids[..|ids| - 1], ids[|ids| - 1];
      assert ids == before + [last];
      IdsOfIsTheFilter(authors, before, sender);
    }
  }

  // And in the order they were given.
  lemma {:induction false} IdsKeepTheirOrder(authors: Authors, ids: seq<string>, sender: string) returns (at: seq<nat>)
    ensures |at| == |IdsOf(authors, ids, sender)|
    ensures forall i :: 0 <= i < |at| ==> at[i] < |ids| && IdsOf(authors, ids, sender)[i] == ids[at[i]]
    ensures forall i, j :: 0 <= i < j < |at| ==> at[i] < at[j]
    ensures forall p: nat :: p in at <==> p < |ids| && ids[p] in authors && authors[ids[p]] == sender
  {
    at := [];
    if ids != [] {
      var n := |ids| - 1;
      var front := IdsKeepTheirOrder(authors, ids[..n], sender);
      assert forall p :: 0 <= p < n ==> ids[..n][p] == ids[p];
      at := front;
      if ids[n] in authors && authors[ids[n]] == sender {
        at := front + [n];
        assert forall i :: 0 <= i < |front| ==> at[i] == front[i];
      }
    }
  }

  // Nobody's list is empty once the sender has appeared.
  ghost predicate GroupsOf(authors: Authors, ids: seq<string>, groups: seq<Group>) {
    var senders := Senders(authors, ids);
    |groups| == |senders| &&
    forall i :: 0 <= i < |groups| ==> groups[i] == Group(senders[i], IdsOf(authors, ids, senders[i]))
  }

  lemma {:induction false} UnseenHasNone(authors: Authors, ids: seq<string>, sender: string)
    requires sender !in Senders(authors, ids)
    ensures IdsOf(authors, ids, sender) == []
  {
    if ids != [] {
      UnseenHasNone(authors, ids[..|ids| - 1], sender);
    }
  }

  // The index finds the group of every sender seen so far.
  ghost predicate Indexes(authors: Authors, ids: seq<string>, groups: seq<Group>, index: map<string, nat>) {
    && (forall s :: s in index <==> s in Senders(authors, ids))
    && (forall s :: s in index ==> index[s] < |groups| && groups[index[s]].sender == s)
  }

  lemma KnownSenderGrows(authors: Authors, ids: seq<string>, id: string, groups: seq<Group>, i: nat)
    requires id in authors && GroupsOf(authors, ids, groups)
    requires i < |groups| && groups[i].sender == authors[id]
    ensures Senders(authors, ids + [id]) == Senders(authors, ids)
    ensures GroupsOf(authors, ids + [id], groups[i := groups[i].(ids := groups[i].ids + [id])])
  {
    SendersInOrder(authors, ids);
    assert (ids + [id])[..|ids|] == ids;
    assert Senders(authors, ids)[i] == authors[id];
  }

  lemma KnownSenderStaysIndexed(authors: Authors, ids: seq<string>, id: string,
                                groups: seq<Group>, index: map<string, nat>)
    requires id in authors && authors[id] in index && Indexes(authors, ids, groups, index)
    requires Senders(authors, ids + [id]) == Senders(authors, ids)
    ensures var i := index[authors[id]];
            Indexes(authors, ids + [id], groups[i := groups[i].(ids := groups[i].ids + [id])], index)
  {
  }

  lemma NewSenderIsIndexed(authors: Authors, ids: seq<string>, id: string, groups: seq<Group>, index: map<string, nat>)
    requires id in authors && authors[id] !in index && Indexes(authors, ids, groups, index)
    requires Senders(authors, ids + [id]) == Senders(authors, ids) + [authors[id]]
    ensures Indexes(authors, ids + [id], groups + [Group(authors[id], [id])], index[authors[id] := |groups|])
  {
  }

  lemma NewSenderJoins(authors: Authors, ids: seq<string>, id: string, groups: seq<Group>)
    requires id in authors && GroupsOf(authors, ids, groups) && authors[id] !in Senders(authors, ids)
    ensures Senders(authors, ids + [id]) == Senders(authors, ids) + [authors[id]]
    ensures GroupsOf(authors, ids + [id], groups + [Group(authors[id], [id])])
  {
    UnseenHasNone(authors, ids, authors[id]);
    assert (ids + [id])[..|ids|] == ids;
    assert forall i :: 0 <= i < |groups| ==> Senders(authors, ids)[i] != authors[id];
  }

  // The first unknown message fails the whole call; otherwise the groups partition the ids.
  method GroupBySender(authors: Authors, ids: seq<string>) returns (out: Grouping)
    ensures match out
            case NotFound(id) => exists n :: 0 <= n < |ids| && ids[n] == id && id !in authors &&
                                             forall k :: 0 <= k < n ==> ids[k] in authors
            case Grouped(groups) => (forall id :: id in ids ==> id in authors) && GroupsOf(authors, ids, groups)
  {
    var index: map<string, nat> := map[];
    var groups: seq<Group> := [];
    for n := 0 to |ids|
      invariant forall k :: 0 <= k < n ==> ids[k] in authors
      invariant GroupsOf(authors, ids[..n], groups) && Indexes(authors, ids[..n], groups, index)
    {
      var id := ids[n];
      if id !in authors {
        return NotFound(id);
      }
      var sender := authors[id];
      assert ids[..n + 1] == ids[..n] + [id];
      if sender in index {
        var i := index[sender];
        KnownSenderGrows(authors, ids[..n], id, groups, i);
        KnownSenderStaysIndexed(authors, ids[..n], id, groups, index);
        groups := groups[i := groups[i].(ids := groups[i].ids + [id])];
      } else {
        NewSenderJoins(authors, ids[..n], id, groups);
        NewSenderIsIndexed(authors, ids[..n], id, groups, index);
        index := index[sender := |groups|];
        groups := groups + [Group(sender, [id])];
      }
    }
    assert ids[..|ids|] == ids;
    out := Grouped(groups);
  }
}
