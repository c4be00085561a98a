/** The Reply record, its schema rules and its two lookups (src/models/reply.ts). */
module ReplyModel {
  import opened Wrappers
  import opened Types
  import opened Collections

  /**
   * A stored reply. `ticketOid` holds the storage identity of the ticket
   * replied to (a reference to a Ticket document), not its ticket number.
   */
  datatype Reply = Reply(
    oid: ObjectId,
    body: string,
    ticketOid: ObjectId,
    author: AccountId,
    createdAt: int)

  /** `body` is required and needs at least one character. */
  predicate ReplyBodyValid(body: Option<string>) {
    body.Some? && |body.value| >= 1
  }

  /** The field paths a new reply fails validation on. */
  function ReplyErrors(body: Option<string>): (errs: seq<string>)
    ensures errs == [] <==> ReplyBodyValid(body)
    ensures errs != [] ==> errs == ["body"]
  {
    if ReplyBodyValid(body) then [] else ["body"]
  }

  /** `findByTicketId`: one reply to the ticket with that storage identity, if any. */
  function FindByTicketId(replies: seq<Reply>, ticketOid: ObjectId): (r: Option<Reply>)
    ensures r.Some? ==> r.value in replies && r.value.ticketOid == ticketOid
    ensures r.None? <==> forall x :: x in replies ==> x.ticketOid != ticketOid
  {
    FindOne(replies, (x: Reply) => x.ticketOid == ticketOid)
  }

  /** `findByAuthor`: one reply written by `author`, if any. */
  function FindByAuthor(replies: seq<Reply>, author: AccountId): (r: Option<Reply>)
    ensures r.Some? ==> r.value in replies && r.value.author == author
    ensures r.None? <==> forall x :: x in replies ==> x.author != author
  {
    FindOne(replies, (x: Reply) => x.author == author)
  }

  /** `find({ticketId})`: every reply to the ticket with that storage identity, in stored order. */
  function RepliesTo(replies: seq<Reply>, ticketOid: ObjectId): (r: seq<Reply>)
    ensures forall x :: x in r <==> x in replies && x.ticketOid == ticketOid
    ensures forall x: Reply :: x.ticketOid == ticketOid ==> multiset(r)[x] == multiset(replies)[x]
    ensures |r| <= |replies|
  {
    FilterCount(replies, (x: Reply) => x.ticketOid == ticketOid);
    Filter(replies, (x: Reply) => x.ticketOid == ticketOid)
  }

  /** A reply appended to a ticket is listed last among that ticket's replies. */
  lemma RepliesToAppend(replies: seq<Reply>, x: Reply)
    ensures RepliesTo(replies + [x], x.ticketOid) == RepliesTo(replies, x.ticketOid) + [x]
  {
    FilterAppend(replies, x, (y: Reply) => y.ticketOid == x.ticketOid);
  }
}
