/** The messaging page (client/pages/Chat.tsx): thread ids, the partners of the acting
    user, the per-partner summaries and their order, one thread's messages with the
    mark-as-read batch, and sending. */
module Chat {
  import opened Seqs
  import opened Text
  import opened Records

  /** `[a, b].sort().join('_')`: the smaller id first, then `_`, then the other. */
  function ThreadId(a: UserId, b: UserId): (r: string)
    ensures LessOrEqual(a, b) ==> r == a + "_" + b
    ensures LessOrEqual(b, a) ==> r == b + "_" + a
  {
    BothOrderedEqual(a, b);
    if LessOrEqual(a, b) then a + "_" + b else b + "_" + a
  }

  lemma BothOrderedEqual(a: string, b: string)
    ensures LessOrEqual(a, b) && LessOrEqual(b, a) ==> a == b
  {
    if LessOrEqual(a, b) && LessOrEqual(b, a) {
      LessOrEqualAntisymmetric(a, b);
    }
  }

  /** Both members of a pair compute the same thread id. */
  lemma ThreadIdSymmetric(a: UserId, b: UserId)
    ensures ThreadId(a, b) == ThreadId(b, a)
  {
    LessOrEqualTotal(a, b);
  }

  /** The position of the first `c` in `s`, or `|s|` when there is none. */
  function IndexOf(s: string, c: char): (r: nat)
    ensures r <= |s|
    ensures forall i :: 0 <= i < r ==> s[i] != c
    ensures r < |s| ==> s[r] == c
  {
    if s == [] then 0 else if s[0] == c then 0 else 1 + IndexOf(s[1..], c)
  }

  lemma {:induction false} IndexOfJoin(x: string, y: string)
    requires '_' !in x
    ensures IndexOf(x + "_" + y, '_') == |x|
  {
    if x != [] {
      assert (x + "_" + y)[1..] == x[1..] + "_" + y;
      IndexOfJoin(x[1..], y);
    }
  }

  /** For ids without `_`, different pairs never share a thread: the id determines the
      pair up to order. */
  lemma ThreadIdDeterminesPair(a: UserId, b: UserId, c: UserId, d: UserId)
    requires '_' !in a && '_' !in b && '_' !in c && '_' !in d
    requires ThreadId(a, b) == ThreadId(c, d)
    ensures (a == c && b == d) || (a == d && b == c)
  {
    LessOrEqualTotal(a, b);
    LessOrEqualTotal(c, d);
    var t := ThreadId(a, b);
    var x, y := if LessOrEqual(a, b) then a else b, if LessOrEqual(a, b) then b else a;
    var u, v := if LessOrEqual(c, d) then c else d, if LessOrEqual(c, d) then d else c;
    assert t == x + "_" + y && t == u + "_" + v;
    IndexOfJoin(x, y);
    IndexOfJoin(u, v);
    assert x == t[..|x|] == u;
    assert y == t[|x| + 1..] == v;
  }

  /** The end of a connection that is not `self`. */
  function Partner(c: Connection, self: UserId): (r: UserId)
    ensures Involves(c, self) ==> {r, self} == {c.user1Id, c.user2Id}
  {
    if c.user1Id == self then c.user2Id else c.user1Id
  }

  /** `userConnections.map(...)`: the partner of each connection, in order. */
  function PartnerIds(connections: seq<Connection>, self: UserId): (r: seq<UserId>)
    ensures |r| == |connections|
    ensures forall i :: 0 <= i < |connections| ==> r[i] == Partner(connections[i], self)
  {
    if connections == [] then [] else [Partner(connections[0], self)] + PartnerIds(connections[1..], self)
  }

  /** The loop over all connections keeping those that involve `self`. */
  method FetchUserConnections(snapshot: seq<Connection>, self: UserId) returns (mine: seq<Connection>)
    ensures mine == ConnectionsOf(snapshot, self)
    ensures forall c :: c in mine <==> c in snapshot && Involves(c, self)
  {
    mine := [];
    var i := 0;
    while i < |snapshot|
      invariant 0 <= i <= |snapshot|
      invariant mine == ConnectionsOf(snapshot[..i], self)
    {
      FilterSnoc((c: Connection) => Involves(c, self), snapshot[..i], snapshot[i]);
      assert snapshot[..i + 1] == snapshot[..i] + [snapshot[i]];
      if snapshot[i].user1Id == self || snapshot[i].user2Id == self {
        mine := mine + [snapshot[i]];
      }
      i := i + 1;
    }
    assert snapshot[..i] == snapshot;
  }

  /** The profiles of the ids that have a user document, in the order of `ids`, each with
      its id set (`{ id: userId, ...data }`). */
  function ProfilesFor(ids: seq<UserId>, users: map<UserId, Profile>): (r: seq<Profile>)
    ensures |r| <= |ids|
    ensures forall p :: p in r ==> p.id in ids && p.id in users && p == users[p.id].(id := p.id)
    ensures (forall id :: id in ids ==> id in users) ==> |r| == |ids|
  {
    if ids == [] then []
    else
      var front := ids[..|ids| - 1];
      var last := ids[|ids| - 1];
      assert ids == front + [last];
      ProfilesFor(front, users) + (if last in users then [users[last].(id := last)] else [])
  }

  /** No id with a document is skipped, and the profiles come in the order of `ids`: their
      ids are exactly the ids that have a document. */
  lemma {:induction false} ProfilesForOrder(ids: seq<UserId>, users: map<UserId, Profile>)
    ensures IdsOf(ProfilesFor(ids, users)) == Filter((id: UserId) => id in users, ids)
    ensures forall id :: id in ids && id in users ==> users[id].(id := id) in ProfilesFor(ids, users)
    decreases |ids|
  {
    if ids != [] {
      var front := ids[..|ids| - 1];
      var last := ids[|ids| - 1];
      assert ids == front + [last];
      ProfilesForOrder(front, users);
      FilterSnoc((id: UserId) => id in users, front, last);
      IdsOfSnoc(ProfilesFor(front, users), if last in users then [users[last].(id := last)] else []);
    }
  }

  /** The ids of a sequence of profiles, in order. */
  function IdsOf(ps: seq<Profile>): (r: seq<UserId>)
    ensures |r| == |ps|
    ensures forall i :: 0 <= i < |ps| ==> r[i] == ps[i].id
  {
    if ps == [] then [] else [ps[0].id] + IdsOf(ps[1..])
  }

  lemma IdsOfSnoc(a: seq<Profile>, b: seq<Profile>)
    ensures IdsOf(a + b) == IdsOf(a) + IdsOf(b)
  {
  }

  /** The loop fetching each partner's profile; a missing document is skipped. */
  method FetchConnectedProfiles(ids: seq<UserId>, users: map<UserId, Profile>) returns (found: seq<Profile>)
    ensures found == ProfilesFor(ids, users)
  {
    found := [];
    var i := 0;
    while i < |ids|
      invariant 0 <= i <= |ids|
      invariant found == ProfilesFor(ids[..i], users)
    {
      assert ids[..i + 1][..i] == ids[..i];
      if ids[i] in users {
        found := found + [users[ids[i]].(id := ids[i])];
      }
      i := i + 1;
    }
    assert ids[..i] == ids;
  }

  /** The time a message is ordered by: its `sentAt`, and 0 (`new Date(null)`) when the
      server timestamp is not resolved. */
  function Time(m: Message): nat {
    match m.sentAt
    case Some(t) => t
    case None => 0
  }

  /** The comparator `timeA - timeB` as an ascending sort key. */
  function OldestFirst(m: Message): int {
    Time(m)
  }

  /** The comparator `timeB - timeA` as an ascending sort key. */
  function NewestFirst(m: Message): int {
    0 - Time(m)
  }

  /** The messages between `self` and `uid`, in either direction. */
  function PairMessages(msgs: seq<Message>, self: UserId, uid: UserId): seq<Message> {
    Filter((m: Message) => (m.fromUserId == self && m.toUserId == uid) || (m.fromUserId == uid && m.toUserId == self), msgs)
  }

  /** The newest message of `pair`; among equally new messages, the first in `pair`. */
  function Newest(pair: seq<Message>): (r: Option<Message>)
    ensures r.None? <==> pair == []
    ensures r.Some? ==> r.value in pair && forall m :: m in pair ==> Time(m) <= Time(r.value)
  {
    if pair == [] then None
    else
      var sorted := SortByKey(pair, NewestFirst);
      assert sorted[0] in multiset(pair);
      assert forall m :: m in pair ==> m in multiset(sorted);
      assert forall m :: m in sorted ==> NewestFirst(sorted[0]) <= NewestFirst(m) by {
        forall m | m in sorted ensures NewestFirst(sorted[0]) <= NewestFirst(m) {
          var k :| 0 <= k < |sorted| && sorted[k] == m;
          if k > 0 {
            SortedAt(sorted, NewestFirst, 0, k);
          }
        }
      }
      Some(sorted[0])
  }

  /** `Newest` breaks ties by position: every message of `pair` before the one it picks is
      strictly older. */
  lemma NewestIsFirstOfNewest(pair: seq<Message>)
    requires pair != []
    ensures exists k :: 0 <= k < |pair| && pair[k] == Newest(pair).value &&
              forall j :: 0 <= j < k ==> Time(pair[j]) < Time(Newest(pair).value)
  {
    var sorted := SortByKey(pair, NewestFirst);
    var v := sorted[0];
    assert Newest(pair) == Some(v);
    var p := (m: Message) => NewestFirst(m) == NewestFirst(v);
    SortStableBy(pair, NewestFirst, NewestFirst(v), p);
    FilterHead(p, sorted);
    assert Filter(p, pair)[0] == v;
    FilterFirst(p, pair);
    var k :| 0 <= k < |pair| && pair[k] == v && forall j :: 0 <= j < k ==> !p(pair[j]);
    forall j | 0 <= j < k ensures Time(pair[j]) < Time(v) {
      assert !p(pair[j]);
      assert pair[j] in pair;
      assert Time(pair[j]) <= Time(v);
    }
  }

  /** One row of the conversation list. */
  datatype Summary = Summary(
    userId: UserId,
    user: Profile,
    lastMessage: Option<Message>,
    unreadCount: nat,
    lastMessageTime: Option<nat>)

  /** The summary for one partner. */
  function SummaryFor(msgs: seq<Message>, self: UserId, user: Profile): Summary {
    var pair := PairMessages(msgs, self, user.id);
    var last := Newest(pair);
    Summary(
      user.id,
      user,
      last,
      |Filter((m: Message) => m.fromUserId == user.id && !m.read, pair)|,
      if last.Some? then last.value.sentAt else None)
  }

  /** The summary's unread count is the number of unread messages from the partner to
      `self`. */
  lemma UnreadCountIsInbound(msgs: seq<Message>, self: UserId, user: Profile)
    ensures SummaryFor(msgs, self, user).unreadCount ==
            |Filter((m: Message) => m.fromUserId == user.id && m.toUserId == self && !m.read, msgs)|
  {
    var uid := user.id;
    FilterFilter(
      (m: Message) => (m.fromUserId == self && m.toUserId == uid) || (m.fromUserId == uid && m.toUserId == self),
      (m: Message) => m.fromUserId == uid && !m.read,
      (m: Message) => m.fromUserId == uid && m.toUserId == self && !m.read,
      msgs);
  }

  /** The last message is one between the pair with the greatest time, and the summary's
      time is that message's resolved timestamp. */
  lemma LastMessageIsNewest(msgs: seq<Message>, self: UserId, user: Profile, m: Message)
    requires m in PairMessages(msgs, self, user.id)
    ensures SummaryFor(msgs, self, user).lastMessage.Some?
    ensures SummaryFor(msgs, self, user).lastMessage.value in PairMessages(msgs, self, user.id)
    ensures Time(m) <= Time(SummaryFor(msgs, self, user).lastMessage.value)
    ensures SummaryFor(msgs, self, user).lastMessageTime == SummaryFor(msgs, self, user).lastMessage.value.sentAt
  {
  }

  /** `users.map(...)`: one summary per partner, in partner order. */
  function BuildSummaries(users: seq<Profile>, msgs: seq<Message>, self: UserId): (r: seq<Summary>)
    ensures |r| == |users|
    ensures forall i :: 0 <= i < |users| ==> r[i] == SummaryFor(msgs, self, users[i])
  {
    if users == [] then [] else [SummaryFor(msgs, self, users[0])] + BuildSummaries(users[1..], msgs, self)
  }

  /** The summary comparator as written: rows without a time go last. */
  function CompareSummaries(a: Summary, b: Summary): int {
    if a.lastMessageTime.None? && b.lastMessageTime.None? then 0
    else if a.lastMessageTime.None? then 1
    else if b.lastMessageTime.None? then -1
    else b.lastMessageTime.value - a.lastMessageTime.value
  }

  /** The comparator as an ascending sort key: the negated time, and 1 for no time. */
  function SummaryKey(s: Summary): int {
    match s.lastMessageTime
    case Some(t) => 0 - t
    case None => 1
  }

  /** The key orders every two summaries exactly as the comparator does. */
  lemma SummaryKeyAgrees(a: Summary, b: Summary)
    ensures CompareSummaries(a, b) < 0 <==> SummaryKey(a) < SummaryKey(b)
    ensures CompareSummaries(a, b) == 0 <==> SummaryKey(a) == SummaryKey(b)
    ensures CompareSummaries(a, b) > 0 <==> SummaryKey(a) > SummaryKey(b)
  {
  }

  /** `summaries.sort(...)`. */
  function SortSummaries(summaries: seq<Summary>): (r: seq<Summary>)
    ensures multiset(r) == multiset(summaries)
  {
    SortByKey(summaries, SummaryKey)
  }

  /** Rows with a time come before rows without, newest first. */
  lemma SummariesOrdered(summaries: seq<Summary>, i: nat, j: nat)
    requires i < j < |SortSummaries(summaries)|
    requires SortSummaries(summaries)[j].lastMessageTime.Some?
    ensures SortSummaries(summaries)[i].lastMessageTime.Some?
    ensures SortSummaries(summaries)[i].lastMessageTime.value >= SortSummaries(summaries)[j].lastMessageTime.value
  {
    SortedAt(SortSummaries(summaries), SummaryKey, i, j);
  }

  /** The thread query. */
  function ThreadMessages(all: seq<Message>, threadId: string): seq<Message> {
    Filter((m: Message) => m.threadId == threadId, all)
  }

  /** `msgs.sort(...)` by ascending time; equal times keep snapshot order. */
  function SortMessages(msgs: seq<Message>): (r: seq<Message>)
    ensures multiset(r) == multiset(msgs)
    ensures forall i, j :: 0 <= i < j < |r| ==> Time(r[i]) <= Time(r[j])
  {
    var r := SortByKey(msgs, OldestFirst);
    forall i, j | 0 <= i < j < |r| ensures Time(r[i]) <= Time(r[j]) {
      SortedAt(r, OldestFirst, i, j);
    }
    r
  }

  /** Messages with equal times keep their snapshot order. */
  lemma MessagesStable(msgs: seq<Message>, t: nat)
    ensures Filter((m: Message) => Time(m) == t, SortMessages(msgs)) == Filter((m: Message) => Time(m) == t, msgs)
  {
    SortStableBy(msgs, OldestFirst, t, (m: Message) => Time(m) == t);
  }

  /** The ids of the unread messages sent by `other`, in snapshot order. */
  function UnreadIdsFrom(msgs: seq<Message>, other: UserId): (r: seq<DocId>)
    ensures forall id :: id in r <==> exists m :: m in msgs && m.fromUserId == other && !m.read && m.id == id
  {
    if msgs == [] then []
    else
      var front := msgs[..|msgs| - 1];
      var last := msgs[|msgs| - 1];
      assert msgs == front + [last];
      UnreadIdsFrom(front, other) + (if last.fromUserId == other && !last.read then [last.id] else [])
  }

  /** The thread listener: copies the snapshot, collects the unread messages of `other`
      into the batch, commits the batch only when it is not empty, and sorts. */
  method OnThreadSnapshot(snapshot: seq<Message>, other: UserId)
    returns (msgs: seq<Message>, toMark: seq<DocId>, commit: bool)
    ensures msgs == SortMessages(snapshot)
    ensures toMark == UnreadIdsFrom(snapshot, other)
    ensures commit <==> toMark != []
  {
    msgs := [];
    toMark := [];
    var hasUnread := false;
    var i := 0;
    while i < |snapshot|
      invariant 0 <= i <= |snapshot|
      invariant msgs == snapshot[..i]
      invariant toMark == UnreadIdsFrom(snapshot[..i], other)
      invariant hasUnread <==> toMark != []
    {
      assert snapshot[..i + 1][..i] == snapshot[..i];
      var m := snapshot[i];
      msgs := msgs + [m];
      if m.fromUserId == other && !m.read {
        toMark := toMark + [m.id];
        hasUnread := true;
      }
      i := i + 1;
    }
    assert snapshot[..i] == snapshot;
    commit := hasUnread;
    msgs := SortMessages(msgs);
  }

  /** The batch of `read: true` updates applied to the messages. */
  function MarkRead(msgs: seq<Message>, ids: seq<DocId>): (r: seq<Message>)
    ensures |r| == |msgs|
    ensures forall i :: 0 <= i < |msgs| ==> r[i] == msgs[i].(read := msgs[i].read || msgs[i].id in ids)
  {
    if msgs == [] then []
    else [msgs[0].(read := msgs[0].read || msgs[0].id in ids)] + MarkRead(msgs[1..], ids)
  }

  /** After the batch of a thread snapshot is applied, no message of the thread sent by
      the other user is unread. */
  lemma BatchReadsThread(all: seq<Message>, threadId: string, other: UserId)
    ensures forall m ::
              (m in ThreadMessages(MarkRead(all, UnreadIdsFrom(ThreadMessages(all, threadId), other)), threadId) &&
               m.fromUserId == other) ==> m.read
  {
    var batch := UnreadIdsFrom(ThreadMessages(all, threadId), other);
    var after := MarkRead(all, batch);
    forall m | m in ThreadMessages(after, threadId) && m.fromUserId == other ensures m.read {
      var k :| 0 <= k < |after| && after[k] == m;
      var old_m := all[k];
      if !old_m.read {
        assert old_m in ThreadMessages(all, threadId);
        assert old_m.id in batch;
      }
    }
  }

  /** The messages collection, with the id the next added message receives. */
  class MessageStore {
    var messages: seq<Message>
    var nextId: DocId

    constructor ()
      ensures messages == []
    {
      messages := [];
      nextId := 0;
    }

    /** The send form: the trimmed input is sent unless it is empty or there is no
        partner; the store's timestamp is `now`. */
    method Send(self: UserId, to: UserId, input: string, now: nat) returns (sent: bool)
      modifies this
      ensures sent <==> !AllSpace(input) && to != []
      ensures sent ==>
                messages == old(messages) + [Message(old(nextId), ThreadId(self, to), self, to, Trim(input), Some(now), false)]
      ensures !sent ==> messages == old(messages)
    {
      TrimSpec(input);
      var text := Trim(input);
      if text == [] || to == [] {
        sent := false;
      } else {
        messages := messages + [Message(nextId, ThreadId(self, to), self, to, text, Some(now), false)];
        nextId := nextId + 1;
        sent := true;
      }
    }

    /** `batch.commit()`. */
    method Commit(ids: seq<DocId>)
      modifies this
      ensures messages == MarkRead(old(messages), ids)
    {
      messages := MarkRead(messages, ids);
    }
  }
}
