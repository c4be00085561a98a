/**
 * The ticket routes as the decorators assemble them: the controller context
 * built from the request (src/@decorators/http.decorator.ts), the page
 * request (src/@decorators/utils.decorator.ts), the role gate
 * (src/@decorators/authorized.decorator.ts), then the operation itself
 * (src/controllers/tickets.ts), and the outcome mapped to a status.
 */
module Routes {
  import opened Wrappers
  import opened Types
  import opened Http
  import opened Authorization
  import opened Pagination
  import opened Tickets
  import TicketModel

  /** The operations that only read the store; ids come from the `:id` path segment. */
  datatype ReadEndpoint =
    | TicketsIndex                // GET api/v1/tickets
    | ResolvedReportPage          // GET api/v1/tickets/resolved-report
    | TicketById(id: nat)         // GET api/v1/tickets/:id
    | RepliesOf(id: nat)          // GET api/v1/tickets/:id/replies

  /** The operations that write to the store. */
  datatype WriteEndpoint =
    | TicketCreation              // POST api/v1/tickets
    | TicketUpdate(id: nat)       // PUT api/v1/tickets/:id
    | ReplyCreation(id: nat)      // POST api/v1/tickets/:id/replies

  datatype Endpoint = Read(read: ReadEndpoint) | Write(write: WriteEndpoint)

  /** The role list each operation declares; an empty list admits every role. */
  function RolesOf(e: Endpoint): (r: seq<AuthRole>)
    ensures r == [] <==> e.Read? && e.read != ResolvedReportPage
    ensures e.Write? ==> Customer in r
    ensures Admin !in r
    ensures e == Read(ResolvedReportPage) ==> forall role :: role in r <==> role == SupportAgent
    ensures e.Write? && !e.write.ReplyCreation? ==> forall role :: role in r <==> role == Customer
    ensures e.Write? && e.write.ReplyCreation? ==>
              forall role :: role in r <==> role == Customer || role == SupportAgent
  {
    match e
    case Read(TicketsIndex) => GET_TICKETS_ROLES
    case Read(ResolvedReportPage) => REPORT_ROLES
    case Read(TicketById(_)) => GET_TICKET_ROLES
    case Read(RepliesOf(_)) => GET_REPLIES_ROLES
    case Write(TicketCreation) => CREATE_TICKET_ROLES
    case Write(TicketUpdate(_)) => UPDATE_TICKET_ROLES
    case Write(ReplyCreation(_)) => CREATE_REPLY_ROLES
  }

  /** The page defaults of the paginated operations. */
  function PageDefaultsOf(e: Endpoint): (d: Option<PageParams>)
    ensures d.Some? <==> e.Read? && !e.read.TicketById?
    ensures d.Some? ==> Complete(d.value) && d.value.page == Some(1) && d.value.limit == Some(20)
    ensures e == Read(TicketsIndex) ==>
              d.value.sort == Some("ticketId") && d.value.direction == Some(Ordered(Asc))
    ensures e == Read(ResolvedReportPage) ==>
              d.value.sort == Some("resolvedAt") && d.value.direction == Some(Ordered(Asc))
    ensures e.Read? && e.read.RepliesOf? ==>
              d.value.sort == Some("createdAt") && d.value.direction == Some(Ordered(Desc))
  {
    match e
    case Read(TicketsIndex) => Some(TICKETS_PAGE)
    case Read(ResolvedReportPage) => Some(REPORT_PAGE)
    case Read(RepliesOf(_)) => Some(REPLIES_PAGE)
    case _ => None
  }

  /**
   * The context an operation receives: built from the request, given a page
   * request when the operation is paginated, then passed through the gate.
   */
  function Admit(e: Endpoint, req: Request, decode: string -> Option<AuthClaim>,
                 accounts: map<AccountId, AuthRole>): (r: GateResult)
    ensures r.Denied? <==> Authorize(RolesOf(e), HandlerContext(req), decode, accounts).Denied?
    ensures r.Admitted? ==>
              && r.ctx.claims.Some? && r.ctx.claims.value.purpose == AUTHENTICATION
              && r.ctx.claims.value.id in accounts
              && (|RolesOf(e)| == 0 || r.ctx.claims.value.role in RolesOf(e))
    ensures r.Admitted? ==>
              AuthorizationToken(req.headers).Some? && r.ctx.claims == decode(AuthorizationToken(req.headers).value)
    ensures r.Admitted? ==>
              r.ctx.body == req.body && r.ctx.params == req.params
              && r.ctx.headers == req.headers && r.ctx.query == req.query
    ensures r.Admitted? ==>
              && (PageDefaultsOf(e).None? ==> r.ctx.page.None?)
              && (PageDefaultsOf(e).Some? ==>
                    r.ctx.page == Some(Normalize(req.query, PageDefaultsOf(e).value))
                    && Complete(r.ctx.page.value))
  {
    var ctx := HandlerContext(req);
    match PageDefaultsOf(e)
    case None => Authorize(RolesOf(e), ctx, decode, accounts)
    case Some(defaults) => Authorize(RolesOf(e), Paginate(ctx, defaults), decode, accounts)
  }

  /**
   * Which roles reach each operation: a valid authentication token of an
   * existing account is admitted exactly when its role is one the operation
   * declares, so customers alone create and update, agents alone read the
   * report, and customers and agents both reply.
   */
  lemma RoleGates(e: Endpoint, req: Request, decode: string -> Option<AuthClaim>,
                  accounts: map<AccountId, AuthRole>)
    ensures var token := AuthorizationToken(req.headers);
            e.Write? || e == Read(ResolvedReportPage) ==>
              (Admit(e, req, decode, accounts).Admitted? <==>
                && Truthy(token) && decode(token.value).Some?
                && decode(token.value).value.purpose == AUTHENTICATION
                && decode(token.value).value.id in accounts
                && var role := decode(token.value).value.role;
                   if e == Read(ResolvedReportPage) then role == SupportAgent
                   else if e.write.ReplyCreation? then role == Customer || role == SupportAgent
                   else role == Customer)
  {
  }

  /**
   * Every read but the report is open to any role: a valid authentication
   * token of an existing account is enough.
   */
  lemma ReadsOpenToEveryRole(r: ReadEndpoint, req: Request, decode: string -> Option<AuthClaim>,
                             accounts: map<AccountId, AuthRole>)
    requires r != ResolvedReportPage
    ensures var token := AuthorizationToken(req.headers);
            Admit(Read(r), req, decode, accounts).Admitted? <==>
              && Truthy(token) && decode(token.value).Some?
              && decode(token.value).value.purpose == AUTHENTICATION
              && decode(token.value).value.id in accounts
  {
  }

  /** The outcome of a read, given the admitted context. */
  function ReadResult(r: ReadEndpoint, ctx: ControllerData, tickets: seq<TicketModel.Ticket>,
                      replies: seq<Reply>, now: int, monthBefore: int -> int): (c: Completion<Body>)
    requires ctx.claims.Some?
    requires r == TicketsIndex || r == ResolvedReportPage ==> ctx.page.Some? && Complete(ctx.page.value)
    ensures r.TicketById? ==> c.Returns? && c.result.Response? && c.result.status == 200
    ensures c.Throws? ==> c.error.OtherError?
  {
    match r
    case TicketsIndex => GetTickets(tickets, ctx.claims.value, ctx.page.value)
    case ResolvedReportPage => ResolvedReport(tickets, ctx.page.value, now, monthBefore)
    case TicketById(id) => GetTicket(tickets, ctx.claims.value, id)
    case RepliesOf(id) => GetTicketReplies(tickets, replies, ctx.claims.value, id)
  }

  /** Listing replies applies no page: the page request the wrapper builds makes no difference. */
  lemma RepliesIgnorePage(id: nat, ctx: ControllerData, page: Option<PageParams>,
                          tickets: seq<TicketModel.Ticket>, replies: seq<Reply>, now: int,
                          monthBefore: int -> int)
    requires ctx.claims.Some?
    ensures ReadResult(RepliesOf(id), ctx, tickets, replies, now, monthBefore)
            == ReadResult(RepliesOf(id), ctx.(page := page), tickets, replies, now, monthBefore)
  {
  }

  /** What a write does to the store and how it answers, given the caller's claim and body. */
  predicate WriteEffect(w: WriteEndpoint, tickets0: seq<TicketModel.Ticket>, replies0: seq<Reply>, next0: ObjectId,
                        tickets1: seq<TicketModel.Ticket>, replies1: seq<Reply>, next1: ObjectId,
                        claim: AuthClaim, body: Fields, now: int, c: Completion<Body>)
  {
    match w
    case TicketCreation =>
      CreateTicketEffect(tickets0, replies0, next0, tickets1, replies1, next1, claim, body, now, c)
    case TicketUpdate(id) =>
      UpdateTicketEffect(tickets0, replies0, next0, tickets1, replies1, next1, claim, id, body, now, c)
    case ReplyCreation(id) =>
      CreateReplyEffect(tickets0, replies0, next0, tickets1, replies1, next1, claim, id, body, now, c)
  }

  /**
   * Serves one request against the store. A refused request is answered
   * 401 with the gate's message and touches nothing; a read leaves the store
   * as it was; an admitted write does what its operation does, as
   * `WriteEffect` says, and every write keeps the store consistent.
   */
  method Handle(store: TicketStore, e: Endpoint, req: Request, decode: string -> Option<AuthClaim>,
                accounts: map<AccountId, AuthRole>, now: int, monthBefore: int -> int)
    returns (s: Sent<Body>)
    requires store.Valid()
    modifies store
    ensures store.Valid() && Evolves(old(store.tickets), store.tickets)
    ensures Admit(e, req, decode, accounts).Denied? ==>
              && s == Sent(UNAUTHORIZED, ErrorMessage(DenialMessage(Admit(e, req, decode, accounts).reason)))
              && unchanged(store)
    ensures e.Read? ==> unchanged(store)
    ensures e.Read? && Admit(e, req, decode, accounts).Admitted? ==>
              s == Send(ReadResult(e.read, Admit(e, req, decode, accounts).ctx,
                                   store.tickets, store.replies, now, monthBefore))
    ensures e.Write? && Admit(e, req, decode, accounts).Admitted? ==>
              var ctx := Admit(e, req, decode, accounts).ctx;
              exists c :: s == Send(c)
                          && WriteEffect(e.write, old(store.tickets), old(store.replies), old(store.nextOid),
                                      store.tickets, store.replies, store.nextOid,
                                      ctx.claims.value, ctx.body, now, c)
  {
    var gate := Admit(e, req, decode, accounts);
    if gate.Denied? {
      s := Sent(UNAUTHORIZED, ErrorMessage(DenialMessage(gate.reason)));
      return;
    }
    var ctx := gate.ctx;
    var claim := ctx.claims.value;
    match e
    case Read(r) =>
      s := Send(ReadResult(r, ctx, store.tickets, store.replies, now, monthBefore));
    case Write(w) =>
      var c: Completion<Body>;
      match w {
        case TicketCreation =>
          c := store.CreateTicket(claim, ctx.body, now);
        case TicketUpdate(id) =>
          c := store.UpdateTicket(claim, id, ctx.body, now);
        case ReplyCreation(id) =>
          c := store.CreateTicketReply(claim, id, ctx.body, now);
      }
      s := Send(c);
  }
}
