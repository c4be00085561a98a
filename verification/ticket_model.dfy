/** The Ticket record, its schema rules and its two lookups (src/models/ticket.ts). */
module TicketModel {
  import opened Wrappers
  import opened Types
  import opened Collections

  /**
   * A stored ticket. `oid` is its storage identity; `ticketId` is the
   * sequential number users see.
   */
  datatype Ticket = Ticket(
    oid: ObjectId,
    subject: Option<string>,
    body: string,
    ticketId: nat,
    author: AccountId,
    status: TicketStatus,
    resolvedAt: Option<int>,
    createdAt: int)

  /** `subject` is optional, but a subject that is given needs at least one character. */
  predicate SubjectValid(subject: Option<string>) {
    subject.None? || |subject.value| >= 1
  }

  /** `body` is required and needs at least one character. */
  predicate BodyValid(body: Option<string>) {
    body.Some? && |body.value| >= 1
  }

  /** The field paths a new ticket fails validation on, in schema order. */
  function TicketErrors(subject: Option<string>, body: Option<string>): (errs: seq<string>)
    ensures errs == [] <==> SubjectValid(subject) && BodyValid(body)
    ensures "subject" in errs <==> !SubjectValid(subject)
    ensures "body" in errs <==> !BodyValid(body)
  {
    (if SubjectValid(subject) then [] else ["subject"]) + (if BodyValid(body) then [] else ["body"])
  }

  /** A stored ticket meets the schema. */
  predicate Conforms(t: Ticket) {
    SubjectValid(t.subject) && |t.body| >= 1
  }

  /** A ticket as first saved: status takes its default, UNATTENDED, and it is not resolved. */
  function NewTicket(oid: ObjectId, subject: Option<string>, body: string, ticketId: nat,
                     author: AccountId, now: int): (t: Ticket)
    ensures t.status == Unattended && t.resolvedAt.None?
    ensures t.oid == oid && t.subject == subject && t.body == body
    ensures t.ticketId == ticketId && t.author == author && t.createdAt == now
  {
    Ticket(oid, subject, body, ticketId, author, Unattended, None, now)
  }

  /** `findLastTicketId`: the largest ticket number in the store, or 0 when it is empty. */
  function FindLastTicketId(tickets: seq<Ticket>): (r: nat)
    ensures forall i :: 0 <= i < |tickets| ==> tickets[i].ticketId <= r
    ensures tickets == [] ==> r == 0
    ensures tickets != [] ==> exists i :: 0 <= i < |tickets| && tickets[i].ticketId == r
  {
    if tickets == [] then 0
    else
      var rest := FindLastTicketId(tickets[1..]);
      if tickets[0].ticketId >= rest then tickets[0].ticketId else rest
  }

  /** `findByTicketId`: the ticket with that number, if any. */
  function FindByTicketId(tickets: seq<Ticket>, id: nat): (r: Option<Ticket>)
    ensures r.Some? ==> r.value in tickets && r.value.ticketId == id
    ensures r.None? <==> forall t :: t in tickets ==> t.ticketId != id
  {
    FindOne(tickets, (t: Ticket) => t.ticketId == id)
  }

  /** Ticket numbers are unique across the store. */
  predicate UniqueTicketIds(tickets: seq<Ticket>) {
    forall i, j :: 0 <= i < j < |tickets| ==> tickets[i].ticketId != tickets[j].ticketId
  }

  /** With unique numbers, the lookup finds exactly the ticket carrying the number. */
  lemma FindByTicketIdExact(tickets: seq<Ticket>, k: nat)
    requires UniqueTicketIds(tickets) && k < |tickets|
    ensures FindByTicketId(tickets, tickets[k].ticketId) == Some(tickets[k])
  {
    var r := FindByTicketId(tickets, tickets[k].ticketId);
    var i :| 0 <= i < |tickets| && tickets[i] == r.value;
    assert i == k;
  }

  /** The next number, `findLastTicketId() + 1`, is not yet taken. */
  lemma NextTicketIdFresh(tickets: seq<Ticket>)
    ensures forall t :: t in tickets ==> t.ticketId != FindLastTicketId(tickets) + 1
  {
  }

  /** The largest number after appending `t` is the larger of the old largest and `t`'s number. */
  lemma {:induction false} LastTicketIdAppend(tickets: seq<Ticket>, t: Ticket)
    ensures FindLastTicketId(tickets + [t]) ==
              if t.ticketId >= FindLastTicketId(tickets) then t.ticketId else FindLastTicketId(tickets)
  {
    if tickets != [] {
      LastTicketIdAppend(tickets[1..], t);
      assert (tickets + [t])[1..] == tickets[1..] + [t];
    }
  }

  /** Appending a ticket numbered `findLastTicketId() + 1` keeps numbers unique. */
  lemma AppendNextTicket(tickets: seq<Ticket>, t: Ticket)
    requires UniqueTicketIds(tickets)
    requires t.ticketId == FindLastTicketId(tickets) + 1
    ensures UniqueTicketIds(tickets + [t])
  {
    var all := tickets + [t];
    forall i, j | 0 <= i < j < |all| ensures all[i].ticketId != all[j].ticketId {
      assert all[i] == tickets[i];
      if j < |tickets| {
        assert all[j] == tickets[j];
      }
    }
  }

  /** A non-empty sequence is its front followed by its last element. */
  lemma DropLast<T>(t: seq<T>)
    requires t != []
    ensures t == t[..|t| - 1] + [t[|t| - 1]]
  {
  }

  lemma SplitLast<T>(s: seq<T>, t: seq<T>)
    requires t != []
    ensures s + t == (s + t[..|t| - 1]) + [t[|t| - 1]]
  {
    DropLast(t);
  }

  /**
   * `created` lists tickets appended one after another to `tickets`, each
   * numbered `findLastTicketId() + 1` of the store as it then was.
   */
  predicate NumberedInTurn(tickets: seq<Ticket>, created: seq<Ticket>)
    decreases |created|
  {
    created == []
    || (var n := |created| - 1;
        NumberedInTurn(tickets, created[..n])
        && created[n].ticketId == FindLastTicketId(tickets + created[..n]) + 1)
  }

  /** The last of several creations was numbered after the ones before it. */
  lemma NumberedInTurnLast(tickets: seq<Ticket>, created: seq<Ticket>)
    requires created != [] && NumberedInTurn(tickets, created)
    ensures NumberedInTurn(tickets, created[..|created| - 1])
    ensures created[|created| - 1].ticketId == FindLastTicketId(tickets + created[..|created| - 1]) + 1
  {
  }

  /** Appending a ticket numbered one past the largest makes it the largest. */
  lemma LastTicketIdStep(tickets: seq<Ticket>, t: Ticket, v: nat)
    requires FindLastTicketId(tickets) == v && t.ticketId == v + 1
    ensures FindLastTicketId(tickets + [t]) == v + 1
  {
    LastTicketIdAppend(tickets, t);
  }

  /** Numbers k+1 ... k+N followed by k+N+1 are numbers k+1 ... k+N+1. */
  lemma NumberingExtends(before: seq<Ticket>, last: Ticket, k: nat)
    requires forall m :: 0 <= m < |before| ==> before[m].ticketId == k + m + 1
    requires last.ticketId == k + |before| + 1
    ensures forall m :: 0 <= m < |before| + 1 ==> (before + [last])[m].ticketId == k + m + 1
  {
    var all := before + [last];
    forall m | 0 <= m < |all| ensures all[m].ticketId == k + m + 1 {
      if m < |before| {
        assert all[m] == before[m];
      }
    }
  }

  /**
   * Sequential creations: N tickets created in turn are numbered k+1 ... k+N
   * for the prior largest number k.
   */
  lemma {:induction false} SequentialTicketIds(tickets: seq<Ticket>, created: seq<Ticket>)
    requires NumberedInTurn(tickets, created)
    ensures forall m :: 0 <= m < |created| ==>
              created[m].ticketId == FindLastTicketId(tickets) + m + 1
    ensures FindLastTicketId(tickets + created) == FindLastTicketId(tickets) + |created|
  {
    if created == [] {
      assert tickets + created == tickets;
    } else {
      var n := |created| - 1;
      var before := created[..n];
      var last := created[n];
      var k := FindLastTicketId(tickets);
      NumberedInTurnLast(tickets, created);
      SequentialTicketIds(tickets, before);
      assert last.ticketId == k + n + 1;
      LastTicketIdStep(tickets + before, last, k + n);
      SplitLast(tickets, created);
      DropLast(created);
      NumberingExtends(before, last, k);
    }
  }
}
