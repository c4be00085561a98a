/**
 * The ticket lifecycle engine (src/controllers/tickets.ts): the read-only
 * queries as functions over the stored collections, and the three operations
 * that write to the store as methods of `TicketStore`.
 */
module Tickets {
  import opened Wrappers
  import opened Types
  import opened Collections
  import opened Ordering
  import opened Http
  import opened TicketModel
  import ReplyModel

  type Reply = ReplyModel.Reply

  // ------------------------------------------------ roles and page defaults

  const CREATE_TICKET_ROLES: seq<AuthRole> := [Customer]
  const GET_TICKETS_ROLES: seq<AuthRole> := []
  const REPORT_ROLES: seq<AuthRole> := [SupportAgent]
  const UPDATE_TICKET_ROLES: seq<AuthRole> := [Customer]
  const GET_TICKET_ROLES: seq<AuthRole> := []
  const GET_REPLIES_ROLES: seq<AuthRole> := []
  const CREATE_REPLY_ROLES: seq<AuthRole> := [Customer, SupportAgent]

  const TICKETS_PAGE: PageParams := PageParams(Some(1), Some(20), Some("ticketId"), Some(Ordered(Asc)))
  const REPORT_PAGE: PageParams := PageParams(Some(1), Some(20), Some("resolvedAt"), Some(Ordered(Asc)))
  const REPLIES_PAGE: PageParams := PageParams(Some(1), Some(20), Some("createdAt"), Some(Ordered(Desc)))

  // ------------------------------------------------------ response bodies

  const TICKET_CREATED: string := "Ticket was created successfully"
  const TICKETS_RETRIEVED: string := "Tickets retrieved successfully"
  const TICKET_UPDATED: string := "Ticket updated successfully"
  const TICKET_RETRIEVED: string := "Ticket retrieved successfully"
  const REPLIES_RETRIEVED: string := "Replies retrieved successfully"
  const REPLY_CREATED: string := "Reply was created successfully"
  const NOT_REPLIED_BY_AGENT: string := "ticket has not been replied by support agent"

  /** One line of the resolved-tickets report. */
  datatype ReportRow = ReportRow(
    ticketId: nat,
    subject: Option<string>,
    body: string,
    status: TicketStatus,
    resolvedAt: Option<int>,
    createdAt: int)

  /** The columns of the resolved-tickets report, in order. */
  const REPORT_FIELDS: seq<string> := ["ticketId", "subject", "body", "status", "resolvedAt", "createdAt"]

  datatype Data =
    | OneTicket(ticket: Ticket)
    | TicketList(tickets: seq<Ticket>)
    | MaybeTicket(found: Option<Ticket>)
    | OneReply(reply: Reply)
    | ReplyList(replies: seq<Reply>)
    | NoData

  /** `{error: false, message, data}`, or the report's rows with their field list. */
  datatype Body = Envelope(message: string, data: Data) | Report(fields: seq<string>, rows: seq<ReportRow>)

  // ------------------------------------------------------------- listing

  /** The sort key a field name selects; any other field leaves the natural order. */
  function TicketKey(field: string): Ticket -> KeyValue {
    if field == "ticketId" then (t: Ticket) => Num(t.ticketId)
    else if field == "createdAt" then (t: Ticket) => Num(t.createdAt)
    else if field == "resolvedAt" then
      (t: Ticket) => if t.resolvedAt.Some? then Num(t.resolvedAt.value) else Missing
    else (t: Ticket) => Missing
  }

  /** `s` with the ASCII capitals turned into small letters. */
  function LowerAscii(s: string): (r: string)
    ensures |r| == |s|
    ensures forall i :: 0 <= i < |s| ==> r[i] == (if 'A' <= s[i] <= 'Z' then (s[i] as int + 32) as char else s[i])
  {
    if s == [] then []
    else
      var c := if 'A' <= s[0] <= 'Z' then (s[0] as int + 32) as char else s[0];
      [c] + LowerAscii(s[1..])
  }

  /**
   * The direction the query layer accepts: an enum value as it is, and raw
   * text that reads, in any letter case, "asc", "ascending" or "1" (ascending)
   * or "desc", "descending" or "-1" (descending); other text is an invalid
   * sort value.
   */
  function SortOrder(d: Direction): (r: Option<SortDirection>)
    ensures d.Ordered? ==> r == Some(d.dir)
    ensures d.RawDirection? ==>
              && (r == Some(Asc) <==> LowerAscii(d.text) in ["asc", "ascending", "1"])
              && (r == Some(Desc) <==> LowerAscii(d.text) in ["desc", "descending", "-1"])
  {
    match d
    case Ordered(dir) => Some(dir)
    case RawDirection(text) =>
      var t := LowerAscii(text);
      if t == "asc" || t == "ascending" || t == "1" then Some(Asc)
      else if t == "desc" || t == "descending" || t == "-1" then Some(Desc)
      else None
  }

  lemma {:induction false} LowerAsciiIdempotent(s: string)
    ensures LowerAscii(LowerAscii(s)) == LowerAscii(s)
  {
    var l := LowerAscii(s);
    assert forall i :: 0 <= i < |l| ==> LowerAscii(l)[i] == l[i];
  }

  /** Letter case in raw direction text makes no difference. */
  lemma SortOrderIgnoresCase(text: string)
    ensures SortOrder(RawDirection(text)) == SortOrder(RawDirection(LowerAscii(text)))
  {
    LowerAsciiIdempotent(text);
  }

  /** A direction written as its numeric value (`1` or `-1`) reads back as that direction. */
  lemma SortOrderOfValue(dir: SortDirection)
    ensures SortOrder(RawDirection(if DirectionValue(dir) == 1 then "1" else "-1")) == Some(dir)
  {
    var text := if DirectionValue(dir) == 1 then "1" else "-1";
    assert LowerAscii(text) == text;
  }

  const INVALID_SORT_VALUE: string := "Invalid sort value"
  const NEGATIVE_SKIP: string := "skip value must be non-negative"

  datatype Listing = Listed(items: seq<Ticket>) | Rejected(message: string)

  /** `(page - 1) * limit`, the number of tickets skipped. */
  function Skip(page: PageParams): int
    requires Complete(page)
  {
    (page.page.value - 1) * page.limit.value
  }

  /** The page request covers the whole listing: first page, and a limit no smaller than it. */
  predicate Covers(page: PageParams, n: nat) {
    Complete(page) && page.page.value == 1 && Abs(page.limit.value) >= n
  }

  /** Sort, skip and limit, as the query options ask. */
  function ListPage(tickets: seq<Ticket>, page: PageParams): (r: Listing)
    requires Complete(page)
    ensures r.Rejected? <==> SortOrder(page.direction.value).None? || Skip(page) < 0
    ensures r.Listed? ==> Sorted(r.items, TicketKey(page.sort.value), SortOrder(page.direction.value).value)
    ensures r.Listed? ==> forall t :: t in r.items ==> t in tickets
    ensures r.Listed? && page.limit.value != 0 ==> |r.items| <= Abs(page.limit.value)
    ensures r.Listed? && Covers(page, |tickets|) ==> multiset(r.items) == multiset(tickets)
    ensures r.Listed? ==>
              var sorted := SortBy(tickets, TicketKey(page.sort.value), SortOrder(page.direction.value).value);
              && |r.items| == PageSize(|tickets|, Skip(page), page.limit.value)
              && forall k :: 0 <= k < |r.items| ==> Skip(page) + k < |sorted| && r.items[k] == sorted[Skip(page) + k]
  {
    match SortOrder(page.direction.value)
    case None => Rejected(INVALID_SORT_VALUE)
    case Some(dir) =>
      var key := TicketKey(page.sort.value);
      match Window(SortBy(tickets, key, dir), Skip(page), page.limit.value)
      case None => Rejected(NEGATIVE_SKIP)
      case Some(items) =>
        SortedPage(tickets, key, dir, Skip(page), page.limit.value);
        assert page.page.value == 1 ==> Skip(page) == 0;
        Listed(items)
  }

  /** Sorting on a field other than the three known ones leaves the tickets in stored order. */
  lemma UnknownSortFieldKeepsOrder(tickets: seq<Ticket>, field: string, dir: SortDirection)
    requires field != "ticketId" && field != "createdAt" && field != "resolvedAt"
    ensures SortBy(tickets, TicketKey(field), dir) == tickets
  {
    SortByConstantKey(tickets, TicketKey(field), dir);
  }

  /** The tickets a caller may see: all of them for staff, their own for a customer. */
  function Visible(tickets: seq<Ticket>, claim: AuthClaim): (r: seq<Ticket>)
    ensures forall t :: t in r <==> t in tickets && (claim.role == Customer ==> t.author == claim.id)
  {
    match claim.role
    case Admin => tickets
    case SupportAgent => tickets
    case Customer => Filter(tickets, (t: Ticket) => t.author == claim.id)
  }

  /** The visible tickets keep stored order: staff see the store as it is, a customer a subsequence of it. */
  lemma VisibleKeepsOrder(tickets: seq<Ticket>, claim: AuthClaim)
    ensures claim.role != Customer ==> Visible(tickets, claim) == tickets
    ensures exists ix :: SubsequenceAt(Visible(tickets, claim), tickets, ix)
  {
    if claim.role == Customer {
      var own := (t: Ticket) => t.author == claim.id;
      FilterKeepsOrder(tickets, own);
      assert SubsequenceAt(Visible(tickets, claim), tickets, MatchPositions(tickets, own, 0));
    } else {
      var all := seq(|tickets|, k requires 0 <= k < |tickets| => k as nat);
      assert SubsequenceAt(Visible(tickets, claim), tickets, all);
    }
  }

  // --------------------------------------------------------------- reads

  /** `getTickets`: the caller's visible tickets, ordered and windowed. */
  function GetTickets(tickets: seq<Ticket>, claim: AuthClaim, page: PageParams): (c: Completion<Body>)
    requires Complete(page)
    ensures c.Throws? <==> ListPage(Visible(tickets, claim), page).Rejected?
    ensures c.Throws? ==> c.error.OtherError?
    ensures c.Returns? ==> c.result.Response? && c.result.status == 200
                           && c.result.message.Envelope? && c.result.message.message == TICKETS_RETRIEVED
                           && c.result.message.data.TicketList?
    ensures c.Returns? ==>
              var items := c.result.message.data.tickets;
              && (forall t :: t in items ==> t in tickets)
              && (claim.role == Customer ==> forall t :: t in items ==> t.author == claim.id)
              && (page.limit.value != 0 ==> |items| <= Abs(page.limit.value))
    ensures c.Returns? ==> c.result.message.data.tickets == ListPage(Visible(tickets, claim), page).items
  {
    match ListPage(Visible(tickets, claim), page)
    case Rejected(message) => Throws(OtherError(message))
    case Listed(items) => Ok(200, Envelope(TICKETS_RETRIEVED, TicketList(items)))
  }

  /** An admin or support agent whose page covers the store receives every ticket. */
  lemma StaffListEverything(tickets: seq<Ticket>, claim: AuthClaim, page: PageParams)
    requires claim.role != Customer
    requires Covers(page, |tickets|) && SortOrder(page.direction.value).Some?
    ensures GetTickets(tickets, claim, page).Returns?
    ensures multiset(GetTickets(tickets, claim, page).result.message.data.tickets) == multiset(tickets)
  {
  }

  /** A customer whose page covers the store receives exactly their own tickets. */
  lemma CustomerListsOwn(tickets: seq<Ticket>, claim: AuthClaim, page: PageParams)
    requires claim.role == Customer
    requires Covers(page, |tickets|) && SortOrder(page.direction.value).Some?
    ensures GetTickets(tickets, claim, page).Returns?
    ensures forall t :: t in GetTickets(tickets, claim, page).result.message.data.tickets
                        <==> t in tickets && t.author == claim.id
  {
    var own := Visible(tickets, claim);
    assert |own| <= |tickets|;
    var items := ListPage(own, page).items;
    forall t ensures t in items <==> t in own {
      assert t in items <==> t in multiset(items);
      assert t in own <==> t in multiset(own);
    }
  }

  /** `getTicket`: the ticket with that number if the caller may see it; `null` data otherwise. */
  function GetTicket(tickets: seq<Ticket>, claim: AuthClaim, id: nat): (c: Completion<Body>)
    ensures c.Returns? && c.result.Response? && c.result.status == 200
    ensures c.result.message.Envelope? && c.result.message.message == TICKET_RETRIEVED
    ensures c.result.message.data.MaybeTicket?
    ensures var found := c.result.message.data.found;
            && (found.Some? ==> found.value in tickets && found.value.ticketId == id)
            && (found.Some? && claim.role == Customer ==> found.value.author == claim.id)
            && (found.None? <==> forall t :: t in tickets ==>
                                   !(t.ticketId == id && (claim.role == Customer ==> t.author == claim.id)))
  {
    var found := match claim.role
      case Admin => FindByTicketId(tickets, id)
      case SupportAgent => FindByTicketId(tickets, id)
      case Customer => FindOne(tickets, (t: Ticket) => t.ticketId == id && t.author == claim.id);
    Ok(200, Envelope(TICKET_RETRIEVED, MaybeTicket(found)))
  }

  /** The report line of a ticket: exactly the six report fields. */
  function Row(t: Ticket): (row: ReportRow)
    ensures row.ticketId == t.ticketId && row.subject == t.subject && row.body == t.body
    ensures row.status == t.status && row.resolvedAt == t.resolvedAt && row.createdAt == t.createdAt
  {
    ReportRow(t.ticketId, t.subject, t.body, t.status, t.resolvedAt, t.createdAt)
  }

  function Rows(ts: seq<Ticket>): (rows: seq<ReportRow>)
    ensures |rows| == |ts|
    ensures forall k :: 0 <= k < |ts| ==> rows[k] == Row(ts[k])
  {
    if ts == [] then [] else [Row(ts[0])] + Rows(ts[1..])
  }

  /** Resolved strictly after `cutoff`. */
  predicate ResolvedSince(t: Ticket, cutoff: int) {
    t.status == Resolved && t.resolvedAt.Some? && t.resolvedAt.value > cutoff
  }

  /** The tickets resolved after `cutoff`, in stored order. */
  function RecentlyResolved(tickets: seq<Ticket>, cutoff: int): (r: seq<Ticket>)
    ensures forall t :: t in r <==> t in tickets && ResolvedSince(t, cutoff)
  {
    Filter(tickets, (t: Ticket) => ResolvedSince(t, cutoff))
  }

  /**
   * `getResolvedTicketsReport`: tickets resolved within the last month,
   * ordered and windowed, projected onto the report fields. `monthBefore`
   * gives the instant one calendar month before its argument.
   */
  function ResolvedReport(tickets: seq<Ticket>, page: PageParams, now: int,
                          monthBefore: int -> int): (c: Completion<Body>)
    requires Complete(page)
    ensures c.Throws? <==> ListPage(RecentlyResolved(tickets, monthBefore(now)), page).Rejected?
    ensures c.Throws? ==> c.error.OtherError?
    ensures c.Returns? ==> c.result.Response? && c.result.status == 200 && c.result.message.Report?
                           && c.result.message.fields == REPORT_FIELDS
    ensures c.Returns? ==>
              forall row :: row in c.result.message.rows ==>
                && row.status == Resolved && row.resolvedAt.Some?
                && row.resolvedAt.value > monthBefore(now)
                && exists t :: t in tickets && Row(t) == row
    ensures c.Returns? ==>
              c.result.message.rows == Rows(ListPage(RecentlyResolved(tickets, monthBefore(now)), page).items)
  {
    var cutoff := monthBefore(now);
    var recent := RecentlyResolved(tickets, cutoff);
    match ListPage(recent, page)
    case Rejected(message) => Throws(OtherError(message))
    case Listed(items) =>
      RowsOfRecent(items, tickets, cutoff);
      Ok(200, Report(REPORT_FIELDS, Rows(items)))
  }

  lemma RowsOfRecent(items: seq<Ticket>, tickets: seq<Ticket>, cutoff: int)
    requires forall t :: t in items ==> t in tickets && ResolvedSince(t, cutoff)
    ensures forall row :: row in Rows(items) ==>
              && row.status == Resolved && row.resolvedAt.Some? && row.resolvedAt.value > cutoff
              && exists t :: t in tickets && Row(t) == row
  {
    var rows := Rows(items);
    forall row | row in rows
      ensures row.status == Resolved && row.resolvedAt.Some? && row.resolvedAt.value > cutoff
      ensures exists t :: t in tickets && Row(t) == row
    {
      var k :| 0 <= k < |rows| && rows[k] == row;
      assert items[k] in tickets && Row(items[k]) == row;
    }
  }

  /** A report page that covers every recent resolution lists each of them. */
  lemma ReportListsEveryRecentResolution(tickets: seq<Ticket>, page: PageParams, now: int,
                                          monthBefore: int -> int, t: Ticket)
    requires t in tickets && ResolvedSince(t, monthBefore(now))
    requires Covers(page, |tickets|) && SortOrder(page.direction.value).Some?
    ensures ResolvedReport(tickets, page, now, monthBefore).Returns?
    ensures Row(t) in ResolvedReport(tickets, page, now, monthBefore).result.message.rows
  {
    var recent := RecentlyResolved(tickets, monthBefore(now));
    var items := ListPage(recent, page).items;
    assert t in multiset(recent);
    assert t in multiset(items);
    var k :| 0 <= k < |items| && items[k] == t;
    assert Rows(items)[k] == Row(t);
  }

  /**
   * `getTicketReplies`: every reply to the ticket, in stored order, with no
   * page applied. When the lookup finds no ticket (an unknown number, or a
   * customer who is not its author) the null result is dereferenced.
   */
  function GetTicketReplies(tickets: seq<Ticket>, replies: seq<Reply>, claim: AuthClaim,
                            id: nat): (c: Completion<Body>)
    ensures c.Throws? <==> forall t :: t in tickets ==>
                             !(t.ticketId == id && (claim.role == Customer ==> t.author == claim.id))
    ensures c.Throws? ==> c.error.OtherError?
    ensures c.Returns? ==> c.result.Response? && c.result.status == 200
                           && c.result.message.Envelope? && c.result.message.message == REPLIES_RETRIEVED
                           && c.result.message.data.ReplyList?
    ensures c.Returns? ==>
              exists t :: t in tickets && t.ticketId == id
                          && (claim.role == Customer ==> t.author == claim.id)
                          && c.result.message.data.replies == ReplyModel.RepliesTo(replies, t.oid)
  {
    match claim.role
    case Admin => StaffReplies(tickets, replies, id)
    case SupportAgent => StaffReplies(tickets, replies, id)
    case Customer =>
      match FindOne(tickets, (t: Ticket) => t.ticketId == id && t.author == claim.id)
      case None => NullRead("author")
      case Some(t) =>
        if t.author == claim.id then
          Ok(200, Envelope(REPLIES_RETRIEVED, ReplyList(ReplyModel.RepliesTo(replies, t.oid))))
        else
          Ok(200, Envelope(REPLIES_RETRIEVED, ReplyList([])))
  }

  function StaffReplies(tickets: seq<Ticket>, replies: seq<Reply>, id: nat): (c: Completion<Body>)
    ensures c.Throws? <==> forall t :: t in tickets ==> t.ticketId != id
    ensures c.Returns? ==>
              exists t :: t in tickets && t.ticketId == id
                          && c == Ok(200, Envelope(REPLIES_RETRIEVED, ReplyList(ReplyModel.RepliesTo(replies, t.oid))))
  {
    match FindByTicketId(tickets, id)
    case None => NullRead("_id")
    case Some(t) => Ok(200, Envelope(REPLIES_RETRIEVED, ReplyList(ReplyModel.RepliesTo(replies, t.oid))))
  }

  // -------------------------------------------------------------- writes

  /** `findByTicketId`, by position: the first ticket carrying the number. */
  function TicketIndex(tickets: seq<Ticket>, id: nat): Option<nat> {
    FirstIndex(tickets, (t: Ticket) => t.ticketId == id)
  }

  /** `findOne({ticketId, author})`, by position. */
  function OwnTicketIndex(tickets: seq<Ticket>, id: nat, author: AccountId): Option<nat> {
    FirstIndex(tickets, (t: Ticket) => t.ticketId == id && t.author == author)
  }

  /** The change `updateTicket` makes when asked to resolve, whatever the current status. */
  function Resolve(t: Ticket, now: int): (r: Ticket)
    ensures r.status == Resolved && r.resolvedAt == Some(now)
    ensures r.(status := t.status, resolvedAt := t.resolvedAt) == t
  {
    t.(status := Resolved, resolvedAt := Some(now))
  }

  /** The change `createTicketReply` makes to the ticket: `resolvedAt` is left as it was. */
  function MarkReplied(t: Ticket): (r: Ticket)
    ensures r.status == Replied
    ensures r.(status := t.status) == t
  {
    t.(status := Replied)
  }

  /** No write ever returns a ticket to UNATTENDED. */
  predicate StatusStep(from: TicketStatus, to: TicketStatus) {
    to == from || to != Unattended
  }

  /**
   * Every ticket already stored keeps its place, identity, number and
   * author, and never returns to UNATTENDED.
   */
  predicate Evolves(before: seq<Ticket>, after: seq<Ticket>) {
    && |before| <= |after|
    && forall k :: 0 <= k < |before| ==>
         && after[k].oid == before[k].oid && after[k].ticketId == before[k].ticketId
         && after[k].author == before[k].author
         && StatusStep(before[k].status, after[k].status)
  }

  /** Appending a ticket leaves every earlier one as it was. */
  lemma EvolvesByAppend(tickets: seq<Ticket>, t: Ticket)
    ensures Evolves(tickets, tickets + [t])
  {
    var after := tickets + [t];
    assert forall k :: 0 <= k < |tickets| ==> after[k] == tickets[k];
  }

  /** Replacing one ticket by one with the same identity, number and author, by a status step. */
  lemma EvolvesBySet(tickets: seq<Ticket>, i: nat, t: Ticket)
    requires i < |tickets|
    requires t.oid == tickets[i].oid && t.ticketId == tickets[i].ticketId && t.author == tickets[i].author
    requires StatusStep(tickets[i].status, t.status)
    ensures Evolves(tickets, tickets[i := t])
  {
  }

  /** A stored ticket: meets the schema, has an allocated identity, and a resolved one has a resolution time. */
  predicate StoredTicket(t: Ticket, nextOid: ObjectId) {
    Conforms(t) && t.oid < nextOid && (t.status == Resolved ==> t.resolvedAt.Some?)
  }

  /** A stored reply: meets the schema, has an allocated identity, and refers to a stored ticket. */
  predicate StoredReply(r: Reply, tickets: seq<Ticket>, nextOid: ObjectId) {
    |r.body| >= 1 && r.oid < nextOid && exists i :: 0 <= i < |tickets| && tickets[i].oid == r.ticketOid
  }

  /** What every write keeps. */
  predicate Consistent(tickets: seq<Ticket>, replies: seq<Reply>, nextOid: ObjectId) {
    && UniqueTicketIds(tickets)
    && (forall i, j :: 0 <= i < j < |tickets| ==> tickets[i].oid != tickets[j].oid)
    && (forall i :: 0 <= i < |tickets| ==> StoredTicket(tickets[i], nextOid))
    && (forall k, l :: 0 <= k < l < |replies| ==> replies[k].oid != replies[l].oid)
    && (forall k :: 0 <= k < |replies| ==> StoredReply(replies[k], tickets, nextOid))
  }

  /** Saving a new ticket numbered after the last one keeps the store consistent. */
  lemma ConsistentAfterCreate(tickets: seq<Ticket>, replies: seq<Reply>, nextOid: ObjectId, t: Ticket)
    requires Consistent(tickets, replies, nextOid)
    requires t.oid == nextOid && Conforms(t) && t.status == Unattended
    requires t.ticketId == FindLastTicketId(tickets) + 1
    ensures Consistent(tickets + [t], replies, nextOid + 1)
  {
    var all := tickets + [t];
    AppendNextTicket(tickets, t);
    assert forall i :: 0 <= i < |tickets| ==> all[i] == tickets[i];
    forall k | 0 <= k < |replies| ensures StoredReply(replies[k], all, nextOid + 1) {
      var i :| 0 <= i < |tickets| && tickets[i].oid == replies[k].ticketOid;
      assert all[i].oid == replies[k].ticketOid;
    }
  }

  /** Changing a stored ticket in place, keeping its identity and number, keeps the store consistent. */
  lemma ConsistentAfterSet(tickets: seq<Ticket>, replies: seq<Reply>, nextOid: ObjectId, i: nat, t: Ticket)
    requires Consistent(tickets, replies, nextOid)
    requires i < |tickets| && t.oid == tickets[i].oid && t.ticketId == tickets[i].ticketId
    requires StoredTicket(t, nextOid)
    ensures Consistent(tickets[i := t], replies, nextOid)
  {
    var all := tickets[i := t];
    forall k | 0 <= k < |replies| ensures StoredReply(replies[k], all, nextOid) {
      var j :| 0 <= j < |tickets| && tickets[j].oid == replies[k].ticketOid;
      assert all[j].oid == replies[k].ticketOid;
    }
  }

  /** Saving a reply to a stored ticket keeps the store consistent. */
  lemma ConsistentAfterReply(tickets: seq<Ticket>, replies: seq<Reply>, nextOid: ObjectId, r: Reply)
    requires Consistent(tickets, replies, nextOid)
    requires r.oid == nextOid && |r.body| >= 1
    requires exists i :: 0 <= i < |tickets| && tickets[i].oid == r.ticketOid
    ensures Consistent(tickets, replies + [r], nextOid + 1)
  {
    var all := replies + [r];
    forall k | 0 <= k < |all| ensures StoredReply(all[k], tickets, nextOid + 1) {
      if k < |replies| {
        assert all[k] == replies[k];
      }
    }
  }

  /** Saving a reply to a stored ticket and marking that ticket REPLIED keeps the store consistent. */
  lemma ConsistentAfterReplyMarked(tickets: seq<Ticket>, replies: seq<Reply>, nextOid: ObjectId, i: nat, r: Reply)
    requires Consistent(tickets, replies, nextOid)
    requires i < |tickets| && r.oid == nextOid && |r.body| >= 1 && r.ticketOid == tickets[i].oid
    ensures Consistent(tickets[i := MarkReplied(tickets[i])], replies + [r], nextOid + 1)
    ensures Evolves(tickets, tickets[i := MarkReplied(tickets[i])])
  {
    ConsistentAfterReply(tickets, replies, nextOid, r);
    ReplyStep(tickets[i], nextOid + 1);
    ConsistentAfterSet(tickets, replies + [r], nextOid + 1, i, MarkReplied(tickets[i]));
    EvolvesBySet(tickets, i, MarkReplied(tickets[i]));
  }

  /** Resolving keeps the one-way status invariant, from any prior status. */
  lemma ResolveStep(t: Ticket, now: int, nextOid: ObjectId)
    requires StoredTicket(t, nextOid)
    ensures StoredTicket(Resolve(t, now), nextOid) && Resolve(t, now).resolvedAt == Some(now)
    ensures StatusStep(t.status, Resolve(t, now).status)
  {
  }

  /**
   * A reply moves the ticket to REPLIED from any status, RESOLVED included,
   * and keeps its resolution time: a replied ticket can carry `resolvedAt`.
   */
  lemma ReplyStep(t: Ticket, nextOid: ObjectId)
    requires StoredTicket(t, nextOid)
    ensures StoredTicket(MarkReplied(t), nextOid) && MarkReplied(t).status == Replied
    ensures MarkReplied(t).resolvedAt == t.resolvedAt
    ensures StatusStep(t.status, MarkReplied(t).status)
  {
  }

  /**
   * `createTicket`: a ticket failing validation is a 400 that saves nothing;
   * otherwise the ticket, numbered one past the largest number stored, is
   * saved UNATTENDED under the next identity and returned with 201. The
   * store before is `tickets0`, `replies0`, `next0`; after, `tickets1`,
   * `replies1`, `next1`.
   */
  predicate CreateTicketEffect(tickets0: seq<Ticket>, replies0: seq<Reply>, next0: ObjectId,
                               tickets1: seq<Ticket>, replies1: seq<Reply>, next1: ObjectId,
                               claim: AuthClaim, body: Fields, now: int, c: Completion<Body>)
  {
    var errs := TicketErrors(Lookup(body, "subject"), Lookup(body, "body"));
    && replies1 == replies0
    && (errs != [] ==> c == Fail(400, ValidationFailed("Ticket", errs)) && tickets1 == tickets0 && next1 == next0)
    && (errs == [] ==>
          "body" in body
          && var t := NewTicket(next0, Lookup(body, "subject"), body["body"],
                                FindLastTicketId(tickets0) + 1, claim.id, now);
             && tickets1 == tickets0 + [t] && next1 == next0 + 1
             && c == Ok(201, Envelope(TICKET_CREATED, OneTicket(t))))
  }

  /**
   * `updateTicket`: a body asking for RESOLVED resolves the caller's own
   * ticket with that number, whatever its status; nothing else changes, and
   * the answer is 200 whether or not anything matched.
   */
  predicate UpdateTicketEffect(tickets0: seq<Ticket>, replies0: seq<Reply>, next0: ObjectId,
                               tickets1: seq<Ticket>, replies1: seq<Reply>, next1: ObjectId,
                               claim: AuthClaim, id: nat, body: Fields, now: int, c: Completion<Body>)
  {
    var i := OwnTicketIndex(tickets0, id, claim.id);
    && c == Ok(200, Envelope(TICKET_UPDATED, NoData))
    && replies1 == replies0 && next1 == next0
    && (if Lookup(body, "status") == Some(StatusName(Resolved)) && i.Some? && i.value < |tickets0| then
          tickets1 == tickets0[i.value := Resolve(tickets0[i.value], now)]
        else
          tickets1 == tickets0)
  }

  /**
   * `createTicketReply`: a missing ticket is a null dereference; a customer
   * replying to an UNATTENDED ticket is a 400; an invalid body is a 400; in
   * each of these nothing changes. Otherwise the reply is saved under the
   * next identity, the ticket is marked REPLIED and the reply returned with 201.
   */
  predicate CreateReplyEffect(tickets0: seq<Ticket>, replies0: seq<Reply>, next0: ObjectId,
                              tickets1: seq<Ticket>, replies1: seq<Reply>, next1: ObjectId,
                              claim: AuthClaim, id: nat, body: Fields, now: int, c: Completion<Body>)
  {
    var i := TicketIndex(tickets0, id);
    var errs := ReplyModel.ReplyErrors(Lookup(body, "body"));
    var same := tickets1 == tickets0 && replies1 == replies0 && next1 == next0;
    && (i.None? ==> c == NullRead(if claim.role == Customer then "status" else "_id") && same)
    && (i.Some? && i.value < |tickets0| ==>
          var t := tickets0[i.value];
          && (claim.role == Customer && t.status == Unattended ==>
                c == Fail(400, NOT_REPLIED_BY_AGENT) && same)
          && (!(claim.role == Customer && t.status == Unattended) && errs != [] ==>
                c == Fail(400, ValidationFailed("Reply", errs)) && same)
          && (!(claim.role == Customer && t.status == Unattended) && errs == [] ==>
                "body" in body
                && var r := ReplyModel.Reply(next0, body["body"], t.oid, claim.id, now);
                   && replies1 == replies0 + [r]
                   && tickets1 == tickets0[i.value := MarkReplied(t)]
                   && next1 == next0 + 1
                   && c == Ok(201, Envelope(REPLY_CREATED, OneReply(r)))))
  }

  /** A reply just saved is the last of its ticket's replies, after all the earlier ones. */
  lemma ReplyListedLast(tickets0: seq<Ticket>, replies0: seq<Reply>, next0: ObjectId,
                        tickets1: seq<Ticket>, replies1: seq<Reply>, next1: ObjectId,
                        claim: AuthClaim, id: nat, body: Fields, now: int, c: Completion<Body>)
    requires CreateReplyEffect(tickets0, replies0, next0, tickets1, replies1, next1, claim, id, body, now, c)
    requires c.Returns?
    ensures c.result.Response? && c.result.message.Envelope? && c.result.message.data.OneReply?
    ensures var r := c.result.message.data.reply;
            ReplyModel.RepliesTo(replies1, r.ticketOid) == ReplyModel.RepliesTo(replies0, r.ticketOid) + [r]
  {
    var r := c.result.message.data.reply;
    ReplyModel.RepliesToAppend(replies0, r);
  }

  /** The ticket store: both collections and the identity allocator. */
  class TicketStore {
    var tickets: seq<Ticket>
    var replies: seq<Reply>
    var nextOid: ObjectId

    ghost predicate Valid()
      reads this
    {
      Consistent(tickets, replies, nextOid)
    }

    constructor ()
      ensures Valid()
      ensures tickets == [] && replies == [] && nextOid == 0
    {
      tickets := [];
      replies := [];
      nextOid := 0;
    }

    /**
     * `createTicket`: numbers the ticket one past the largest number stored,
     * validates it and saves it as UNATTENDED; a validation failure is a 400
     * and saves nothing.
     */
    method CreateTicket(claim: AuthClaim, body: Fields, now: int) returns (c: Completion<Body>)
      requires Valid()
      modifies this
      ensures Valid() && Evolves(old(tickets), tickets)
      ensures CreateTicketEffect(old(tickets), old(replies), old(nextOid), tickets, replies, nextOid, claim, body, now, c)
    {
      var ticketId := FindLastTicketId(tickets) + 1;
      var subject := Lookup(body, "subject");
      var text := Lookup(body, "body");
      var errs := TicketErrors(subject, text);
      if errs != [] {
        c := Fail(400, ValidationFailed("Ticket", errs));
        return;
      }
      var t := NewTicket(nextOid, subject, text.value, ticketId, claim.id, now);
      ConsistentAfterCreate(tickets, replies, nextOid, t);
      EvolvesByAppend(tickets, t);
      tickets := tickets + [t];
      nextOid := nextOid + 1;
      c := Ok(201, Envelope(TICKET_CREATED, OneTicket(t)));
    }

    /**
     * `updateTicket`: when the body asks for RESOLVED, resolves the caller's
     * own ticket with that number, whatever its status; always answers 200,
     * whether or not anything matched.
     */
    method UpdateTicket(claim: AuthClaim, id: nat, body: Fields, now: int) returns (c: Completion<Body>)
      requires Valid()
      modifies this
      ensures Valid() && Evolves(old(tickets), tickets)
      ensures UpdateTicketEffect(old(tickets), old(replies), old(nextOid), tickets, replies, nextOid, claim, id, body, now, c)
    {
      if Lookup(body, "status") == Some(StatusName(Resolved)) {
        var i := OwnTicketIndex(tickets, id, claim.id);
        if i.Some? {
          var t := Resolve(tickets[i.value], now);
          ResolveStep(tickets[i.value], now, nextOid);
          ConsistentAfterSet(tickets, replies, nextOid, i.value, t);
          EvolvesBySet(tickets, i.value, t);
          tickets := tickets[i.value := t];
        }
      }
      c := Ok(200, Envelope(TICKET_UPDATED, NoData));
    }

    /**
     * `createTicketReply`: looks the ticket up by number (a missing one is
     * dereferenced as null); refuses a customer while the ticket is
     * UNATTENDED; validates and saves the reply, then marks the ticket
     * REPLIED. The author of the ticket is not compared with the caller.
     */
    method CreateTicketReply(claim: AuthClaim, id: nat, body: Fields, now: int) returns (c: Completion<Body>)
      requires Valid()
      modifies this
      ensures Valid() && Evolves(old(tickets), tickets)
      ensures CreateReplyEffect(old(tickets), old(replies), old(nextOid), tickets, replies, nextOid, claim, id, body, now, c)
    {
      var i := TicketIndex(tickets, id);
      if i.None? {
        c := NullRead(if claim.role == Customer then "status" else "_id");
        return;
      }
      var t := tickets[i.value];
      if claim.role == Customer && t.status == Unattended {
        c := Fail(400, NOT_REPLIED_BY_AGENT);
        return;
      }
      var text := Lookup(body, "body");
      var errs := ReplyModel.ReplyErrors(text);
      if errs != [] {
        c := Fail(400, ValidationFailed("Reply", errs));
        return;
      }
      var r := ReplyModel.Reply(nextOid, text.value, t.oid, claim.id, now);
      ConsistentAfterReplyMarked(tickets, replies, nextOid, i.value, r);
      replies := replies + [r];
      nextOid := nextOid + 1;
      tickets := tickets[i.value := MarkReplied(t)];
      c := Ok(201, Envelope(REPLY_CREATED, OneReply(r)));
    }
  }
}
