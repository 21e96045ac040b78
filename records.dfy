/** The documents of the application's collections (`users`, `connectionRequests`,
    `connections`, `passedUsers`, `messages`) as values. Document ids are handed out by the
    store; timestamps are milliseconds since the epoch. */
module Records {
  import opened Seqs

  datatype Option<+T> = None | Some(value: T)

  /** A user id as issued by the authentication service. */
  type UserId = string
  /** A document id as issued by the store when a document is added. */
  type DocId = nat
  /** A skill label, e.g. "Python". */
  type Skill = string

  /** A document of the `users` collection, with its id. A field the document lacks
      (`bio`, `skills`, `wantsToLearn`) is the empty string or the empty list. */
  datatype Profile = Profile(
    id: UserId,
    name: string,
    email: string,
    bio: string,
    skills: seq<Skill>,
    wantsToLearn: seq<Skill>,
    createdAt: nat)

  datatype RequestStatus = Pending | Accepted | Declined

  datatype ConnectionRequest = ConnectionRequest(
    id: DocId,
    fromUserId: UserId,
    toUserId: UserId,
    status: RequestStatus,
    createdAt: nat)

  /** A connection between two users; which of them is `user1Id` carries no meaning. */
  datatype Connection = Connection(id: DocId, user1Id: UserId, user2Id: UserId, createdAt: nat)

  datatype PassRecord = PassRecord(id: DocId, userId: UserId, passedUserId: UserId, createdAt: nat)

  /** A chat message. `sentAt` is `None` while the server timestamp has not been resolved
      yet; a missing `read` field is `false`. */
  datatype Message = Message(
    id: DocId,
    threadId: string,
    fromUserId: UserId,
    toUserId: UserId,
    text: string,
    sentAt: Option<nat>,
    read: bool)

  predicate Involves(c: Connection, uid: UserId) {
    c.user1Id == uid || c.user2Id == uid
  }

  /** The connections with `uid` at either end, in collection order. */
  function ConnectionsOf(all: seq<Connection>, uid: UserId): seq<Connection> {
    Filter((c: Connection) => Involves(c, uid), all)
  }
}
