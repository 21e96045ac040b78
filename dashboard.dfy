/** The discovery page (client/pages/Dashboard.tsx): the in-memory store of connection
    requests, connections and passes; the page's views of them; the like, pass, accept and
    decline actions; and the filter that decides which scored candidates are shown. */
module Dashboard {
  import opened Seqs
  import opened Records
  import opened MatchEngine

  /** The requests addressed to `uid` that are still pending: the page's request query. */
  function InboundPending(all: seq<ConnectionRequest>, uid: UserId): (r: seq<ConnectionRequest>)
    ensures forall q :: q in r <==> q in all && q.toUserId == uid && q.status == Pending
  {
    Filter((q: ConnectionRequest) => q.toUserId == uid && q.status == Pending, all)
  }

  /** The pending requests from `from` to `to`, in store order: the two queries of `onLike`. */
  function PendingBetween(all: seq<ConnectionRequest>, from: UserId, to: UserId): (r: seq<ConnectionRequest>)
    ensures forall q :: q in r <==> q in all && q.fromUserId == from && q.toUserId == to && q.status == Pending
  {
    Filter((q: ConnectionRequest) => q.fromUserId == from && q.toUserId == to && q.status == Pending, all)
  }

  /** The ids `uid` has passed on, in store order: the page's pass query. */
  function PassedIds(passes: seq<PassRecord>, uid: UserId): (r: seq<UserId>)
    ensures |r| <= |passes|
    ensures forall x :: x in r <==> exists p :: p in passes && p.userId == uid && p.passedUserId == x
  {
    if passes == [] then []
    else
      var front := passes[..|passes| - 1];
      var last := passes[|passes| - 1];
      assert passes == front + [last];
      PassedIds(front, uid) + (if last.userId == uid then [last.passedUserId] else [])
  }

  /** A connection joins `self` and `id`, in either orientation. */
  predicate IsConnected(connections: seq<Connection>, self: UserId, id: UserId) {
    exists c :: c in connections &&
      ((c.user1Id == self && c.user2Id == id) || (c.user2Id == self && c.user1Id == id))
  }

  /** A held request runs between `self` and `id`, in either direction. */
  predicate HasPendingRequest(requests: seq<ConnectionRequest>, self: UserId, id: UserId) {
    exists q :: q in requests &&
      ((q.fromUserId == self && q.toUserId == id) || (q.fromUserId == id && q.toUserId == self))
  }

  /** The render-time test: a candidate is shown when not connected, not in a held request
      and not passed. */
  predicate IsShown(self: UserId, connections: seq<Connection>, requests: seq<ConnectionRequest>,
                    passed: seq<UserId>, u: MatchedUser)
  {
    !IsConnected(connections, self, u.id) && !HasPendingRequest(requests, self, u.id) && u.id !in passed
  }

  /** The candidates the page shows, in the order of `matched`. */
  function ShownMatches(self: UserId, matched: seq<MatchedUser>, connections: seq<Connection>,
                        requests: seq<ConnectionRequest>, passed: seq<UserId>): (r: seq<MatchedUser>)
    ensures forall u :: u in r <==> u in matched && IsShown(self, connections, requests, passed, u)
    ensures IsSubsequence(r, matched)
    ensures |r| <= |matched|
  {
    Filter((u: MatchedUser) => IsShown(self, connections, requests, passed, u), matched)
  }

  /** Because the held list is the inbound pending requests, the outbound half of the
      request test never fires: for another user, a held request with `id` exists exactly
      when `id` has a pending request to `self`. */
  lemma HeldRequestTestIsInboundOnly(all: seq<ConnectionRequest>, self: UserId, id: UserId)
    requires id != self
    ensures HasPendingRequest(InboundPending(all, self), self, id) <==> PendingBetween(all, id, self) != []
  {
    if PendingBetween(all, id, self) != [] {
      var q := PendingBetween(all, id, self)[0];
      assert q in PendingBetween(all, id, self);
      assert q in InboundPending(all, self);
    }
    if HasPendingRequest(InboundPending(all, self), self, id) {
      var q :| q in InboundPending(all, self) &&
        ((q.fromUserId == self && q.toUserId == id) || (q.fromUserId == id && q.toUserId == self));
      assert q in PendingBetween(all, id, self);
    }
  }

  /** The request a like creates never enters the liker's own held list. */
  lemma OwnRequestNotHeld(all: seq<ConnectionRequest>, self: UserId, other: UserId, id: DocId, t: nat)
    requires other != self
    ensures InboundPending(all + [ConnectionRequest(id, self, other, Pending, t)], self) == InboundPending(all, self)
  {
    FilterSnoc((q: ConnectionRequest) => q.toUserId == self && q.status == Pending, all,
               ConnectionRequest(id, self, other, Pending, t));
  }

  /** After a pass on `id`, no candidate with that id is shown. */
  lemma PassHides(self: UserId, matched: seq<MatchedUser>, connections: seq<Connection>,
                  requests: seq<ConnectionRequest>, passed: seq<UserId>, id: UserId)
    ensures forall u :: u in ShownMatches(self, matched, connections, requests, passed + [id]) ==> u.id != id
  {
    assert id in passed + [id];
  }

  /** After a connection with `id` has been made and synchronised, `id` is not shown. */
  lemma ConnectionHides(self: UserId, matched: seq<MatchedUser>, all: seq<Connection>, c: Connection,
                        requests: seq<ConnectionRequest>, passed: seq<UserId>)
    requires c in all && Involves(c, self)
    ensures forall u :: u in ShownMatches(self, matched, ConnectionsOf(all, self), requests, passed) ==>
              u.id != (if c.user1Id == self then c.user2Id else c.user1Id)
  {
    assert c in ConnectionsOf(all, self);
  }

  /** A pass hides a user only from the one who passed: another user's pass records do not
      change `uid`'s passed list. */
  lemma PassIsPersonal(passes: seq<PassRecord>, id: DocId, a: UserId, b: UserId, t: nat, uid: UserId)
    requires a != uid
    ensures PassedIds(passes + [PassRecord(id, a, b, t)], uid) == PassedIds(passes, uid)
  {
    assert (passes + [PassRecord(id, a, b, t)])[..|passes|] == passes;
  }

  /** What `onLike` did. */
  datatype LikeOutcome = Matched(requestId: DocId) | AlreadyRequested | RequestSent

  /** The branch `onLike` takes: an inbound pending request comes first, an outbound one
      second. With several inbound pending requests from the same user, the one taken is
      the first in store order; the database returns them in document-id order, which the
      model does not distinguish from store order. Likes made one after another never store
      a second pending request for the same pair (`SendKeepsAtMostOne`, and the invariant
      clauses of `Session.OnLike`), so there is at most one. */
  function DecideLike(requests: seq<ConnectionRequest>, self: UserId, other: UserId): (o: LikeOutcome)
    ensures o.Matched? <==> PendingBetween(requests, other, self) != []
    ensures o.Matched? ==> o.requestId == PendingBetween(requests, other, self)[0].id
    ensures o == AlreadyRequested <==>
              PendingBetween(requests, other, self) == [] && PendingBetween(requests, self, other) != []
    ensures o == RequestSent <==>
              PendingBetween(requests, other, self) == [] && PendingBetween(requests, self, other) == []
  {
    var inbound := PendingBetween(requests, other, self);
    if inbound != [] then Matched(inbound[0].id)
    else if PendingBetween(requests, self, other) != [] then AlreadyRequested
    else RequestSent
  }

  /** `q` and `r` run between the same two users, in either direction. */
  predicate SamePair(q: ConnectionRequest, r: ConnectionRequest) {
    (q.fromUserId == r.fromUserId && q.toUserId == r.toUserId) ||
    (q.fromUserId == r.toUserId && q.toUserId == r.fromUserId)
  }

  /** `q` and `r` are not two pending requests between the same two users. */
  predicate NotBothPendingForPair(q: ConnectionRequest, r: ConnectionRequest) {
    !(q.status == Pending && r.status == Pending && SamePair(q, r))
  }

  /** No two stored requests are pending between the same two users. */
  predicate AtMostOnePending(requests: seq<ConnectionRequest>) {
    Pairwise(requests, NotBothPendingForPair)
  }

  /** Deleting requests keeps at most one pending request per pair. */
  lemma DeleteKeepsAtMostOne(requests: seq<ConnectionRequest>, id: DocId)
    requires AtMostOnePending(requests)
    ensures AtMostOnePending(Filter((q: ConnectionRequest) => q.id != id, requests))
  {
    FilterPairwise((q: ConnectionRequest) => q.id != id, requests, NotBothPendingForPair);
  }

  /** The request `onLike` sends, stored only when no pending request runs between the two
      users in either direction, keeps at most one pending request per pair. */
  lemma SendKeepsAtMostOne(requests: seq<ConnectionRequest>, self: UserId, other: UserId, id: DocId, t: nat)
    requires AtMostOnePending(requests)
    requires PendingBetween(requests, other, self) == [] && PendingBetween(requests, self, other) == []
    ensures AtMostOnePending(requests + [ConnectionRequest(id, self, other, Pending, t)])
  {
    var x := ConnectionRequest(id, self, other, Pending, t);
    forall y | y in requests ensures NotBothPendingForPair(y, x) {
      assert y !in PendingBetween(requests, other, self);
      assert y !in PendingBetween(requests, self, other);
    }
    PairwiseSnoc(requests, x, NotBothPendingForPair);
  }

  /** With at most one pending request per pair, deleting the inbound request a like turns
      into a connection leaves no pending request between the two users, in either
      direction. */
  lemma MatchClearsPair(requests: seq<ConnectionRequest>, self: UserId, other: UserId)
    requires AtMostOnePending(requests)
    requires PendingBetween(requests, other, self) != []
    ensures var rest := Filter((q: ConnectionRequest) => q.id != PendingBetween(requests, other, self)[0].id, requests);
            PendingBetween(rest, other, self) == [] && PendingBetween(rest, self, other) == []
  {
    var first := PendingBetween(requests, other, self)[0];
    assert first in PendingBetween(requests, other, self);
    var rest := Filter((q: ConnectionRequest) => q.id != first.id, requests);
    forall y | y in rest ensures !(y.status == Pending && SamePair(y, first)) {
      var i :| 0 <= i < |requests| && requests[i] == y;
      var j :| 0 <= j < |requests| && requests[j] == first;
      assert i != j;
      if i < j {
        assert NotBothPendingForPair(requests[i], requests[j]);
      } else {
        assert NotBothPendingForPair(requests[j], requests[i]);
      }
    }
    FilterNone((q: ConnectionRequest) => q.fromUserId == other && q.toUserId == self && q.status == Pending, rest);
    FilterNone((q: ConnectionRequest) => q.fromUserId == self && q.toUserId == other && q.status == Pending, rest);
  }

  /** Two requests of the given collection carry different ids. */
  predicate RequestIdsDiffer(q: ConnectionRequest, r: ConnectionRequest) { q.id != r.id }
  predicate ConnectionIdsDiffer(c: Connection, d: Connection) { c.id != d.id }
  predicate PassIdsDiffer(p: PassRecord, q: PassRecord) { p.id != q.id }

  /** The remote collections `connectionRequests`, `connections` and `passedUsers`. `nextId`
      is the id the next added document receives. */
  class Store {
    var requests: seq<ConnectionRequest>
    var connections: seq<Connection>
    var passes: seq<PassRecord>
    var nextId: DocId

    /** Every stored document has an id below `nextId`, so added documents have fresh ids,
        and no two documents of a collection share an id. */
    predicate Valid()
      reads this
    {
      (forall q :: q in requests ==> q.id < nextId) &&
      (forall c :: c in connections ==> c.id < nextId) &&
      (forall p :: p in passes ==> p.id < nextId) &&
      Pairwise(requests, RequestIdsDiffer) &&
      Pairwise(connections, ConnectionIdsDiffer) &&
      Pairwise(passes, PassIdsDiffer)
    }

    constructor ()
      ensures Valid()
      ensures requests == [] && connections == [] && passes == []
      ensures AtMostOnePending(requests)
    {
      requests := [];
      connections := [];
      passes := [];
      nextId := 0;
    }

    method AddRequest(from: UserId, to: UserId, now: nat) returns (id: DocId)
      requires Valid()
      modifies this
      ensures Valid()
      ensures id == old(nextId) && nextId > id
      ensures requests == old(requests) + [ConnectionRequest(id, from, to, Pending, now)]
      ensures connections == old(connections) && passes == old(passes)
    {
      id := nextId;
      PairwiseSnoc(requests, ConnectionRequest(id, from, to, Pending, now), RequestIdsDiffer);
      requests := requests + [ConnectionRequest(id, from, to, Pending, now)];
      nextId := nextId + 1;
    }

    method AddConnection(user1: UserId, user2: UserId, now: nat) returns (id: DocId)
      requires Valid()
      modifies this
      ensures Valid()
      ensures id == old(nextId) && nextId > id
      ensures connections == old(connections) + [Connection(id, user1, user2, now)]
      ensures requests == old(requests) && passes == old(passes)
    {
      id := nextId;
      PairwiseSnoc(connections, Connection(id, user1, user2, now), ConnectionIdsDiffer);
      connections := connections + [Connection(id, user1, user2, now)];
      nextId := nextId + 1;
    }

    method AddPass(uid: UserId, passed: UserId, now: nat) returns (id: DocId)
      requires Valid()
      modifies this
      ensures Valid()
      ensures id == old(nextId) && nextId > id
      ensures passes == old(passes) + [PassRecord(id, uid, passed, now)]
      ensures requests == old(requests) && connections == old(connections)
    {
      id := nextId;
      PairwiseSnoc(passes, PassRecord(id, uid, passed, now), PassIdsDiffer);
      passes := passes + [PassRecord(id, uid, passed, now)];
      nextId := nextId + 1;
    }

    /** `deleteDoc` on a request; deleting an id that is not stored does nothing. */
    method DeleteRequest(id: DocId)
      requires Valid()
      modifies this
      ensures Valid()
      ensures requests == Filter((q: ConnectionRequest) => q.id != id, old(requests))
      ensures connections == old(connections) && passes == old(passes) && nextId == old(nextId)
    {
      FilterPairwise((q: ConnectionRequest) => q.id != id, requests, RequestIdsDiffer);
      requests := Filter((q: ConnectionRequest) => q.id != id, requests);
    }
  }

  /** The documents of `users` other than the acting user's, in collection order. */
  method OtherUsers(docs: seq<Profile>, self: UserId) returns (others: seq<Profile>)
    ensures others == Filter((p: Profile) => p.id != self, docs)
    ensures forall p :: p in others ==> p in docs && p.id != self
  {
    others := [];
    var i := 0;
    while i < |docs|
      invariant 0 <= i <= |docs|
      invariant others == Filter((p: Profile) => p.id != self, docs[..i])
    {
      FilterSnoc((p: Profile) => p.id != self, docs[..i], docs[i]);
      assert docs[..i + 1] == docs[..i] + [docs[i]];
      if docs[i].id != self {
        others := others + [docs[i]];
      }
      i := i + 1;
    }
    assert docs[..i] == docs;
  }

  /** The requests listener's loop; the query's conditions are checked as the documents
      are copied. */
  method CollectInboundPending(all: seq<ConnectionRequest>, self: UserId) returns (held: seq<ConnectionRequest>)
    ensures held == InboundPending(all, self)
  {
    var p := (q: ConnectionRequest) => q.toUserId == self && q.status == Pending;
    held := [];
    var i := 0;
    while i < |all|
      invariant 0 <= i <= |all|
      invariant held == Filter(p, all[..i])
    {
      FilterSnoc(p, all[..i], all[i]);
      assert all[..i + 1] == all[..i] + [all[i]];
      if all[i].toUserId == self && all[i].status == Pending {
        held := held + [all[i]];
      }
      i := i + 1;
    }
    assert all[..i] == all;
  }

  /** The passes listener's loop: the passed id of each of this user's pass records. */
  method CollectPassedIds(passes: seq<PassRecord>, self: UserId) returns (passed: seq<UserId>)
    ensures passed == PassedIds(passes, self)
  {
    passed := [];
    var i := 0;
    while i < |passes|
      invariant 0 <= i <= |passes|
      invariant passed == PassedIds(passes[..i], self)
    {
      assert passes[..i + 1][..i] == passes[..i];
      if passes[i].userId == self {
        passed := passed + [passes[i].passedUserId];
      }
      i := i + 1;
    }
    assert passes[..i] == passes;
  }

  /** One open discovery page of the user `self`. */
  class Session {
    const self: UserId
    const store: Store
    var userProfile: Option<Profile>
    var matchedUsers: seq<MatchedUser>
    var connections: seq<Connection>
    var connectionRequests: seq<ConnectionRequest>
    var passedUsers: seq<UserId>

    predicate Valid()
      reads this, store
    {
      store.Valid()
    }

    constructor (self: UserId, store: Store)
      requires store.Valid()
      ensures Valid()
      ensures this.self == self && this.store == store
      ensures userProfile == None && matchedUsers == [] && connections == [] &&
              connectionRequests == [] && passedUsers == []
    {
      this.self := self;
      this.store := store;
      userProfile := None;
      matchedUsers := [];
      connections := [];
      connectionRequests := [];
      passedUsers := [];
    }

    /** The candidates on screen. */
    function Shown(): seq<MatchedUser>
      reads this
    {
      ShownMatches(self, matchedUsers, connections, connectionRequests, passedUsers)
    }

    /** The profile load: with the user's own document, every other user is scored. */
    method LoadMatches(me: Option<Profile>, docs: seq<Profile>)
      modifies this
      ensures me.Some? ==>
                userProfile == me &&
                matchedUsers == CalculateMatches(me.value, Filter((p: Profile) => p.id != self, docs))
      ensures me.Some? ==> forall m :: m in matchedUsers ==> m.id != self
      ensures me.None? ==> userProfile == old(userProfile) && matchedUsers == old(matchedUsers)
      ensures connections == old(connections) && connectionRequests == old(connectionRequests)
      ensures passedUsers == old(passedUsers)
    {
      if me.Some? {
        userProfile := me;
        var others := OtherUsers(docs, self);
        matchedUsers := CalculateMatches(me.value, others);
        forall m | m in matchedUsers ensures m.id != self {
          MatchesArePositiveCandidates(me.value, others, m);
        }
      }
    }

    /** The connections listener: the snapshot copied, then the connections involving `self`. */
    method SyncConnections()
      modifies this
      ensures connections == ConnectionsOf(store.connections, self)
      ensures matchedUsers == old(matchedUsers) && connectionRequests == old(connectionRequests)
      ensures passedUsers == old(passedUsers) && userProfile == old(userProfile)
    {
      var all := CopyAll(store.connections);
      connections := ConnectionsOf(all, self);
    }

    /** The requests listener. */
    method SyncRequests()
      modifies this
      ensures connectionRequests == InboundPending(store.requests, self)
      ensures matchedUsers == old(matchedUsers) && connections == old(connections)
      ensures passedUsers == old(passedUsers) && userProfile == old(userProfile)
    {
      connectionRequests := CollectInboundPending(store.requests, self);
    }

    /** The passes listener. */
    method SyncPassed()
      modifies this
      ensures passedUsers == PassedIds(store.passes, self)
      ensures matchedUsers == old(matchedUsers) && connections == old(connections)
      ensures connectionRequests == old(connectionRequests) && userProfile == old(userProfile)
    {
      passedUsers := CollectPassedIds(store.passes, self);
    }

    /** `onPass(id)`: a pass record is stored, then the page hides `id`. */
    method OnPass(id: UserId, now: nat)
      requires Valid()
      modifies this, store
      ensures Valid()
      ensures store.passes == old(store.passes) + [PassRecord(old(store.nextId), self, id, now)]
      ensures store.requests == old(store.requests) && store.connections == old(store.connections)
      ensures passedUsers == old(passedUsers) + [id]
      ensures matchedUsers == Filter((u: MatchedUser) => u.id != id, old(matchedUsers))
      ensures connections == old(connections) && connectionRequests == old(connectionRequests)
      ensures userProfile == old(userProfile)
    {
      var _ := store.AddPass(self, id, now);
      passedUsers := passedUsers + [id];
      matchedUsers := Filter((u: MatchedUser) => u.id != id, matchedUsers);
    }

    /** `onLike(other)`: an inbound pending request makes a connection and is deleted; an
        outbound one changes nothing; otherwise a new request is stored. */
    method OnLike(other: UserId, now: nat) returns (outcome: LikeOutcome)
      requires Valid()
      modifies store
      ensures Valid()
      ensures outcome == DecideLike(old(store.requests), self, other)
      ensures outcome.Matched? ==>
                store.connections == old(store.connections) + [Connection(old(store.nextId), other, self, now)] &&
                store.requests == Filter((q: ConnectionRequest) => q.id != outcome.requestId, old(store.requests))
      ensures outcome == AlreadyRequested ==>
                store.connections == old(store.connections) && store.requests == old(store.requests)
      ensures outcome == RequestSent ==>
                store.connections == old(store.connections) &&
                store.requests == old(store.requests) + [ConnectionRequest(old(store.nextId), self, other, Pending, now)]
      ensures store.passes == old(store.passes)
      ensures AtMostOnePending(old(store.requests)) ==> AtMostOnePending(store.requests)
      ensures AtMostOnePending(old(store.requests)) && outcome.Matched? ==>
                PendingBetween(store.requests, other, self) == [] && PendingBetween(store.requests, self, other) == []
    {
      var before := store.requests;
      var inbound := PendingBetween(store.requests, other, self);
      if inbound != [] {
        var first := inbound[0];
        var _ := store.AddConnection(other, self, now);
        store.DeleteRequest(first.id);
        outcome := Matched(first.id);
        if AtMostOnePending(before) {
          DeleteKeepsAtMostOne(before, first.id);
          MatchClearsPair(before, self, other);
        }
      } else {
        var ours := PendingBetween(store.requests, self, other);
        if ours != [] {
          outcome := AlreadyRequested;
        } else {
          var id := store.AddRequest(self, other, now);
          outcome := RequestSent;
          if AtMostOnePending(before) {
            SendKeepsAtMostOne(before, self, other, id, now);
          }
        }
      }
    }

    /** `acceptRequest(requestId, from)`: a connection `(from, self)`, then the request is deleted. */
    method AcceptRequest(requestId: DocId, from: UserId, now: nat)
      requires Valid()
      modifies store
      ensures Valid()
      ensures store.connections == old(store.connections) + [Connection(old(store.nextId), from, self, now)]
      ensures store.requests == Filter((q: ConnectionRequest) => q.id != requestId, old(store.requests))
      ensures store.passes == old(store.passes)
      ensures AtMostOnePending(old(store.requests)) ==> AtMostOnePending(store.requests)
    {
      var before := store.requests;
      var _ := store.AddConnection(from, self, now);
      store.DeleteRequest(requestId);
      if AtMostOnePending(before) {
        DeleteKeepsAtMostOne(before, requestId);
      }
    }

    /** `declineRequest(requestId)`: only the request is deleted. */
    method DeclineRequest(requestId: DocId)
      requires Valid()
      modifies store
      ensures Valid()
      ensures store.requests == Filter((q: ConnectionRequest) => q.id != requestId, old(store.requests))
      ensures store.connections == old(store.connections) && store.passes == old(store.passes)
      ensures AtMostOnePending(old(store.requests)) ==> AtMostOnePending(store.requests)
    {
      var before := store.requests;
      store.DeleteRequest(requestId);
      if AtMostOnePending(before) {
        DeleteKeepsAtMostOne(before, requestId);
      }
    }
  }

  /** Two users like each other on a fresh store: the first like sends a request, the second
      turns it into the one connection, and no request is left. */
  method MutualLike(a: UserId, b: UserId, now: nat) returns (store: Store)
    requires a != b
    ensures store.Valid()
    ensures store.requests == []
    ensures |store.connections| == 1
    ensures store.connections[0].user1Id == a && store.connections[0].user2Id == b
  {
    store := new Store();
    var sa := new Session(a, store);
    var sb := new Session(b, store);
    var first := sa.OnLike(b, now);
    assert first == RequestSent;
    var req := store.requests[0];
    assert PendingBetween(store.requests, a, b) == [req];
    var second := sb.OnLike(a, now + 1);
    assert second == Matched(req.id);
  }
}
