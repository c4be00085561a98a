# Support requests tracker — a verified model of the ticket store

This project models the core of the support-requests tracker, an HTTP service
where customers open support tickets, support agents reply to them, customers
resolve them, and agents read a report of recent resolutions.

- **Ticket store.** The ticket and reply collections live in a `TicketStore`
  class (`tickets.dfy`). Its three writing operations are methods:
  creating a ticket, updating (resolving) one, and posting a reply. Each
  method keeps a consistency invariant. The four reads are functions over
  the collections: the ticket listing, one ticket, the resolved-tickets
  report, and the replies to a ticket.
- **Records.** The ticket record (`ticket_model.dfy`) and the reply record
  (`reply_model.dfy`) each come with their schema rules and their lookups.
- **Authorization gate** (`authorized.dfy`). A guard chain over the bearer
  token, the decoded claim, the account table and the operation's role list.
- **Page-request normaliser** (`pagination.dfy`). It includes JavaScript's
  `parseInt` and the `|| default` fallbacks.
- **Outcome mapping** (`http.dfy`). It turns what a controller returns or
  throws into the status and body sent.
- **Route assembly** (`routes.dfy`). It chains the context, page request,
  gate and operation together for each ticket route.
- **Account controllers.** Login (`auth.dfy`) and account creation
  (`users.dfy`).
- **Shared pieces.**
  - `types.dfy` holds the enumerations and records.
  - `collections.dfy` holds the database's `findOne` and `find` as first
    match and filter.
  - `ordering.dfy` holds the sort/skip/limit window.

Where the code and the intended design disagree, the model follows the code:

- A reply moves a RESOLVED ticket back to REPLIED and keeps its `resolvedAt`.
- An update resolves a ticket whatever its status, UNATTENDED included.
- A replying customer is never compared with the ticket's author.
- A lookup that finds no ticket is dereferenced as `null`. The request then
  fails with 500, not with an empty result.

The one-way invariant "RESOLVED implies `resolvedAt` is set" holds for every
stored ticket, and every write keeps it. Its converse does not hold
(`Tickets.ReplyStep`).

Abstractions:

- The clock is an integer parameter `now`.
- "One month before" is a function parameter `monthBefore`.
- The token verifier is a function parameter `decode`, which yields
  `None` for a bad token.
- The token signer is `sign`, the pin-hash check is `checkPin`, and the pin
  hasher is `hash`.
- The account table the gate consults is a map from account id to role.
- Storage identities are naturals. The class hands them out from a
  counter, `nextOid`.

## Model

| member | source | states |
|---|---|---|
| Types.Lookup | src/@types/main.ts:30-38 | a request field is present exactly when its key is in the map, and then has the stored value |
| Types.RolesAreThree | src/@types/main.ts:3-7 | every role is one of ADMIN, CUSTOMER, SUPPORT_AGENT |
| Types.MethodNamesDistinct | src/@types/main.ts:9-14 | the four HTTP methods get, post, delete, put have distinct names |
| Types.StatusesAreThree | src/@types/main.ts:16-20 | every status is one of UNATTENDED, REPLIED, RESOLVED |
| Types.DirectionFromValue | src/@types/main.ts:40-43 | 1 is ASC, -1 is DESC, any other number is no direction |
| Types.DirectionValueRoundTrip | src/@types/main.ts:40-43 | a direction's value maps back to the direction |
| Collections.FirstIndex | src/models/ticket.ts:57-59 | the position found satisfies the filter and no earlier one does; none means no element does |
| Collections.FindOne | src/models/reply.ts:36-42 | `findOne` yields a matching element of the collection, and yields nothing exactly when none matches |
| Collections.Filter | src/controllers/tickets.ts:52-56 | `find` keeps exactly the matching elements and is no longer than the collection |
| Collections.FilterCount | src/controllers/tickets.ts:52-56 | each matching element is kept as often as it occurs and every other is dropped |
| Collections.MatchPositions | src/controllers/tickets.ts:52-56 | positions of elements that match, strictly increasing and within the collection |
| Collections.FilterKeepsOrder | src/controllers/tickets.ts:52-56 | `find` keeps stored order: its result is the collection read at the increasing positions of the matches |
| Collections.FilterAppend | src/controllers/tickets.ts:140 | filtering a collection with one more element at the end adds that element at the end when it matches |
| Ordering.InsertAdds | src/controllers/tickets.ts:45-49 | inserting into a listing adds exactly that element |
| Ordering.SortBy | src/controllers/tickets.ts:46 | sorting keeps the number of documents (order and permutation are `SortBySorted` and `SortByPermutes`) |
| Ordering.SortByPermutes | src/controllers/tickets.ts:45-49 | sorting is a permutation of the input |
| Ordering.InsertSorted | src/controllers/tickets.ts:45-49 | inserting into a sorted listing keeps it sorted |
| Ordering.SortBySorted | src/controllers/tickets.ts:45-49 | the sorted listing is in key order for the requested direction |
| Ordering.SortByConstantKey | src/controllers/tickets.ts:45-49 | when every key is equal the sort keeps stored order |
| Ordering.Window | src/controllers/tickets.ts:47-48 | a negative skip is refused; otherwise the window is the elements from position `skip` on, at most `abs(limit)` of them, all of them for limit 0, its length given exactly by `PageSize` |
| Ordering.WindowWhole | src/controllers/tickets.ts:47-48 | a window from position 0 with room for everything is the whole listing |
| Ordering.WindowSorted | src/controllers/tickets.ts:45-49 | a window of a sorted listing is sorted |
| Ordering.SortedPage | src/controllers/tickets.ts:45-49 | a page is ordered, drawn from the input, and a permutation of the input when it covers it |
| Http.HandlerContext | src/@decorators/http.decorator.ts:15-21 | the controller receives the request's body, query, headers and params, with no claims and no page |
| Http.Send | src/@decorators/http.decorator.ts:22-31 | a redirect is sent as a redirect; a response sends its status and message; a ResponseError sends its status and `{message}`; any other error sends 500 and `{message}` |
| Http.ErrorBodyOnlyFromThrow | src/@decorators/http.decorator.ts:26-31 | an error body comes only from a throw, and a status other than 500 on it only from a ResponseError |
| Authorization.IndexOf | src/@decorators/authorized.decorator.ts:13-15 | the first occurrence of the separator at or after a position, or none |
| Authorization.BearerToken | src/@decorators/authorized.decorator.ts:13-15 | segment 1 of the split on "Bearer " exists exactly when the header contains the separator; it is the text after the first separator up to the next separator or the end of the header, and never contains the separator |
| Authorization.BearerTokenOfScheme | src/@decorators/authorized.decorator.ts:13-15 | a header "Bearer t" yields `t` when `t` does not contain the separator |
| Authorization.Authorize | src/@decorators/authorized.decorator.ts:13-41 | a missing or empty token is the "Invalid Authorization Token" refusal; admission holds exactly when the claim decodes, has purpose "authentication", names an existing account, and carries a listed role (any role for an empty list); the admitted context is the input with the decoded claim |
| Authorization.AdmittedClaim | src/@decorators/authorized.decorator.ts:18-41 | an admitted request carries an authentication claim of an existing account with an allowed role |
| Authorization.EmptyRolesAdmitAnyRole | src/@decorators/authorized.decorator.ts:35-41 | an empty role list admits a valid token of an existing account whatever its role |
| Authorization.UnknownAccountRefused | src/@decorators/authorized.decorator.ts:28-33 | a valid claim of a missing account is refused, before any role check |
| Authorization.ForbiddenRoleRefused | src/@decorators/authorized.decorator.ts:35-40 | a non-empty role list without the claim's role refuses it |
| Authorization.StoredRoleIrrelevant | src/@decorators/authorized.decorator.ts:28-35 | the decision depends only on which accounts exist, not on their stored roles |
| Authorization.AdmissionKeepsContext | src/@decorators/authorized.decorator.ts:41 | body, params, headers, query and page pass the gate unchanged |
| Pagination.TrimStart | src/@decorators/utils.decorator.ts:12-13 | `parseInt` drops exactly the leading run of white space: every dropped character is white space, the rest is a suffix of the input, and it does not start with white space |
| Pagination.DigitPrefix | src/@decorators/utils.decorator.ts:12-13 | `parseInt` reads the longest prefix of digits in the radix |
| Pagination.ParseInt | src/@decorators/utils.decorator.ts:12-13 | a missing value is NaN; a number is read only from text holding a decimal digit, and a negative one only from text holding a minus sign |
| Pagination.DecimalString | src/@decorators/utils.decorator.ts:12-13 | the decimal spelling of a number is a non-empty string of digits |
| Pagination.ParseDecimal | src/@decorators/utils.decorator.ts:12-13 | the decimal spelling of `n` parses to `n` |
| Pagination.ParseNegativeDecimal | src/@decorators/utils.decorator.ts:12-13 | "-" followed by the spelling of `n` parses to `-n` |
| Pagination.ParseIntegerString | src/@decorators/utils.decorator.ts:12-13 | the decimal text of every integer, negative ones included, parses back to it |
| Pagination.ParseNonNumeric | src/@decorators/utils.decorator.ts:12-13 | text whose first non-blank character starts no number parses to NaN |
| Pagination.IntOrDefault | src/@decorators/utils.decorator.ts:12-13 | a parsed non-zero number is used; a missing, non-numeric or zero value gives the default |
| Pagination.TextOrDefault | src/@decorators/utils.decorator.ts:14-15 | a present non-empty text is used unvalidated; otherwise the default |
| Pagination.Normalize | src/@decorators/utils.decorator.ts:10-16 | page and limit follow the numeric fallback, sort and direction the text fallback, and complete defaults give a complete page request |
| Pagination.Paginate | src/@decorators/utils.decorator.ts:17 | only `page` is replaced; every other context field is forwarded |
| Pagination.QueryPageUsed | src/@decorators/utils.decorator.ts:12 | a non-zero page number written in the query, negative included, is used as given |
| Pagination.PageFallsBack | src/@decorators/utils.decorator.ts:12 | a missing, "0" or non-numeric page falls back to the default |
| TicketModel.TicketErrors | src/models/ticket.ts:20-28 | validation fails exactly when the subject is given but empty or the body is missing or empty, naming each failing field |
| TicketModel.NewTicket | src/models/ticket.ts:39-44 | a new ticket is UNATTENDED with no resolution time and carries the given fields |
| TicketModel.FindLastTicketId | src/models/ticket.ts:53-55 | the largest ticket number in the store, which is attained, or 0 for an empty store |
| TicketModel.FindByTicketId | src/models/ticket.ts:57-59 | yields a stored ticket with the number, and nothing exactly when none has it |
| TicketModel.FindByTicketIdExact | src/models/ticket.ts:29-33 | with unique numbers the lookup yields the ticket carrying the number |
| TicketModel.NextTicketIdFresh | src/controllers/tickets.ts:15-19 | last number + 1 is carried by no stored ticket |
| TicketModel.LastTicketIdAppend | src/models/ticket.ts:53-55 | after appending, the last number is the larger of the old last number and the new ticket's |
| TicketModel.AppendNextTicket | src/models/ticket.ts:29-33 | appending a ticket numbered last + 1 keeps numbers unique |
| TicketModel.SequentialTicketIds | src/controllers/tickets.ts:15-19 | N creations in turn are numbered k+1 … k+N, and the last number becomes k+N |
| ReplyModel.ReplyErrors | src/models/reply.ts:16-20 | validation fails exactly when the body is missing or empty, naming "body" |
| ReplyModel.FindByTicketId | src/models/reply.ts:36-38 | yields a reply to that ticket, and nothing exactly when there is none |
| ReplyModel.FindByAuthor | src/models/reply.ts:40-42 | yields a reply by that author, and nothing exactly when there is none |
| ReplyModel.RepliesTo | src/controllers/tickets.ts:140 | exactly the replies to the ticket, each as often as stored |
| ReplyModel.RepliesToAppend | src/controllers/tickets.ts:140 | a new reply to a ticket appears last among its replies |
| Tickets.ListPage | src/controllers/tickets.ts:45-49 | an invalid direction or a negative skip is refused; otherwise item k of the page is item skip+k of the listing sorted by the field and direction, the page has exactly the length skip and limit leave, it is sorted, drawn from the input, and all of the input when page 1 covers it |
| Tickets.UnknownSortFieldKeepsOrder | src/controllers/tickets.ts:45-49 | sorting on an unknown field keeps stored order |
| Tickets.Visible | src/controllers/tickets.ts:42-57 | staff see every ticket, a customer exactly their own |
| Tickets.VisibleKeepsOrder | src/controllers/tickets.ts:42-57 | the tickets a caller may see keep stored order: all of them for staff, a subsequence for a customer |
| Tickets.SortOrder | src/controllers/tickets.ts:46 | an enum direction is used as is; raw text is ascending exactly when it reads "asc", "ascending" or "1" and descending exactly when it reads "desc", "descending" or "-1", in any letter case |
| Tickets.SortOrderIgnoresCase | src/controllers/tickets.ts:46 | letter case in raw direction text does not change the direction |
| Tickets.SortOrderOfValue | src/controllers/tickets.ts:46 | a direction written as its numeric value 1 or -1 reads back as that direction |
| Tickets.GetTickets | src/controllers/tickets.ts:40-66 | 200 with exactly the page `ListPage` makes of the tickets visible to the caller; a refused query is a 500 |
| Tickets.StaffListEverything | src/controllers/tickets.ts:43-50 | an admin or agent whose page covers the store gets every ticket |
| Tickets.CustomerListsOwn | src/controllers/tickets.ts:51-57 | a customer whose page covers the store gets exactly their own tickets |
| Tickets.GetTicket | src/controllers/tickets.ts:104-121 | always 200; the data is the numbered ticket if the caller may see it, `null` exactly when there is none |
| Tickets.Row | src/controllers/tickets.ts:83 | a report line holds exactly ticketId, subject, body, status, resolvedAt, createdAt |
| Tickets.Rows | src/controllers/tickets.ts:83 | one report line per listed ticket, in order |
| Tickets.RecentlyResolved | src/controllers/tickets.ts:78 | exactly the stored tickets that are RESOLVED with `resolvedAt` after the cutoff |
| Tickets.ResolvedReport | src/controllers/tickets.ts:76-85 | a refused query is a 500; otherwise the report has the six fields and its lines are those of the page `ListPage` makes of the tickets resolved after one month before now, each of a stored RESOLVED ticket |
| Tickets.RowsOfRecent | src/controllers/tickets.ts:78-83 | lines of recently resolved stored tickets meet the report filter |
| Tickets.ReportListsEveryRecentResolution | src/controllers/tickets.ts:78-83 | a page covering the store lists every recent resolution |
| Tickets.GetTicketReplies | src/controllers/tickets.ts:132-156 | fails with 500 exactly when no ticket the caller may see has the number; otherwise 200 with every reply to that ticket, so the empty-list branch is never taken |
| Tickets.StaffReplies | src/controllers/tickets.ts:137-141 | for staff, fails exactly when no ticket has the number, otherwise the replies to it |
| Tickets.ConsistentAfterCreate | src/controllers/tickets.ts:15-24 | saving a conforming ticket numbered last + 1 keeps the store consistent |
| Tickets.ConsistentAfterSet | src/controllers/tickets.ts:94 | changing a ticket in place, keeping identity and number, keeps the store consistent |
| Tickets.ConsistentAfterReply | src/controllers/tickets.ts:165-172 | saving a reply to a stored ticket keeps the store consistent |
| Tickets.ConsistentAfterReplyMarked | src/controllers/tickets.ts:165-173 | saving a reply and marking its ticket REPLIED keeps the store consistent, and every ticket keeps its identity, number and author and moves only by a permitted status step |
| Tickets.Resolve | src/controllers/tickets.ts:91-92 | the ticket becomes RESOLVED with `resolvedAt` now, and no other field changes |
| Tickets.MarkReplied | src/controllers/tickets.ts:173 | the ticket becomes REPLIED, and no other field changes, `resolvedAt` included |
| Tickets.ResolveStep | src/controllers/tickets.ts:91-94 | resolving from any status sets RESOLVED with `resolvedAt = now` and keeps the invariant |
| Tickets.ReplyStep | src/controllers/tickets.ts:173 | a reply sets REPLIED from any status and keeps `resolvedAt`, so a replied ticket can carry a resolution time |
| Tickets.ReplyListedLast | src/controllers/tickets.ts:165-172 | a reply just saved is listed last among its ticket's replies, after all the earlier ones |
| Tickets.TicketStore.constructor | src/models/ticket.ts:18-51 | an empty store is consistent |
| Tickets.TicketStore.CreateTicket | src/controllers/tickets.ts:14-30 | as `CreateTicketEffect` says: invalid input is a 400 naming the failing fields and stores nothing; otherwise it appends an UNATTENDED ticket numbered last + 1 by the caller under the next identity and answers 201 with it; the store stays consistent |
| Tickets.TicketStore.UpdateTicket | src/controllers/tickets.ts:89-100 | as `UpdateTicketEffect` says: only a status of exactly "RESOLVED" on the caller's own numbered ticket changes anything, and that ticket is resolved at `now`; the answer is always 200 with `null` data; the store stays consistent |
| Tickets.TicketStore.CreateTicketReply | src/controllers/tickets.ts:160-182 | as `CreateReplyEffect` says: a missing ticket fails with 500; a customer on an UNATTENDED ticket gets 400; an invalid body gets 400; in these cases nothing changes; otherwise the reply by the caller is appended, the ticket becomes REPLIED, and the answer is 201 with the reply; the store stays consistent |
| Routes.PageDefaultsOf | src/controllers/tickets.ts:32-129 | exactly the listing, report and replies routes are paginated, each with page 1 and limit 20: the listing by ticketId ascending, the report by resolvedAt ascending, the replies by createdAt descending |
| Routes.RolesOf | src/controllers/tickets.ts:12-158 | the role list is empty exactly for the listing, one ticket and the replies; creating and updating list only CUSTOMER, the report only SUPPORT_AGENT, replying exactly CUSTOMER and SUPPORT_AGENT; no route lists ADMIN |
| Routes.Admit | src/@decorators/authorized.decorator.ts:13-41 | the page request never changes admission; an admitted context carries the claim decoded from the request's bearer token, which is an authentication claim of an existing account with a declared role, the request's fields, and the normalised page request exactly on the paginated routes |
| Routes.RoleGates | src/controllers/tickets.ts:12-158 | a valid authentication token of an existing account is admitted exactly when its role is declared: creating and updating admit customers and no one else, the report agents and no one else, replying both customers and agents |
| Routes.ReadsOpenToEveryRole | src/controllers/tickets.ts:38-130 | the listing, one ticket and the replies admit any role holding a valid token of an existing account |
| Routes.ReadResult | src/controllers/tickets.ts:104-121 | reading one ticket always answers 200, and every read fails only with a 500 |
| Routes.RepliesIgnorePage | src/controllers/tickets.ts:130-150 | listing replies gives the same answer whatever page request was built |
| Routes.Handle | src/@decorators/http.decorator.ts:13-31 | a refused request is answered 401 with the gate's message and changes nothing; a read changes nothing and is answered from the store; an admitted write is answered with the outcome of its operation and changes the store as that operation's effect says; every request keeps the store consistent |
| Login.WithoutPin | src/controllers/auth.ts:22-29 | the account data sent back has every stored field but the pin |
| Login.FindByUsername | src/models/user.ts:38-40 | yields a stored account with that username, and nothing exactly when none has it |
| Login.IssuedClaim | src/controllers/auth.ts:24-28 | the claim is the account's id and stored role with purpose "authentication" |
| Login.Login | src/controllers/auth.ts:10-35 | a missing username is 400 before a missing pin is; an unknown username fails with 500; a pin that does not check is 400; success is 200 with the pin-less account and the token of its claim |
| Login.LoginTokenAdmits | src/controllers/auth.ts:24-34 | the issued token, presented as "Bearer …" to a verifier inverting the signer, opens the gate for the account's role, carrying the issued claim |
| Users.MatchDigitsExactly | src/controllers/users.ts:10 | matching `\d{n}` at both ends holds exactly for n characters 0-9 |
| Users.PinAcceptedExactly | src/controllers/users.ts:10-12 | the pin guard accepts exactly the four-digit pins |
| Users.CreateUser | src/controllers/users.ts:9-28 | a bad or missing pin is 400 "Invalid pin: must be 4 digits" and stores nothing; a refused save is 400 with its message and stores nothing; otherwise the document is stored and answered 201 |
| Users.CreatedResponseHasPinHash | src/controllers/users.ts:21-27 | the created account's response carries the pin hash, not the stripped copy |

## Left out

- Token signing and verification are parameters (`sign`, `decode`). This
  leaves out signature, expiry and issuer checks.
- Pin hashing and comparison are parameters (`hash`, `checkPin`).
- The report stops at the field list and the selected rows. CSV formatting
  is not part of this model.
- "One month before now" is a function parameter. No calendar arithmetic is
  done.
- Route registration, the "/" prefix of the registered path, and writing
  the response are I/O on the web framework.
  - The id of an endpoint is given as a number rather than read from
    `params`.
  - Route matching is not modelled.
- The gate's 401 is modelled as the final outcome. What the outcome mapping
  then does with the object it returns is not modelled.
- Operations are atomic and sequential, so two interleavings are out of
  scope: the read-then-save of the next ticket number, and the
  reply-then-status double write.
- Tickets.TicketStore.CreateTicketReply: the second save (of the ticket
  after the reply) is not modelled as able to fail. Every stored ticket
  meets the schema, so that save always succeeds.
- Database query behaviour is modelled as follows:
  - `findOne` is the first match in stored order.
  - `find` keeps stored order (Collections.FilterKeepsOrder).
  - Sort keys are restricted to ticketId, createdAt and resolvedAt. A
    missing `resolvedAt` sorts first, and any other field keeps stored order.
  - Direction text follows the sort-value rule of the query builder mongoose
    5.x uses (mquery): "asc", "ascending" or "1" and "desc", "descending" or
    "-1", in any letter case, are accepted; other text is an invalid sort
    value (500). Letter case is folded for ASCII letters only, which is exact
    for these words.
  - A negative skip is refused (500). A limit of 0 means no limit, and a
    negative limit counts as its absolute value.
  - The exact wording of database and validation messages is modelled as
    "<Model> validation failed: <fields>".
  - The two query refusals carry fixed texts. An invalid sort value gives
    "Invalid sort value", whereas the query builder's message also names
    the field and the value ("Invalid sort value: {<field>: <value> }"). A
    negative skip gives "skip value must be non-negative", whereas the
    database server answers with its own wording. Only the 500 status and
    the refusal are modelled.
- Roles are the three members of `AuthRole`. The source does not check
  the role text a new account is given (src/controllers/users.ts:16; the
  schema at src/models/user.ts:23-26 has no list of allowed values). Login
  puts such a role into the token (src/controllers/auth.ts:24-28), and the
  open routes admit it (src/@decorators/authorized.decorator.ts:35). For
  such a role, getTickets, getTicket and getTicketReplies match no case of
  their `switch` (src/controllers/tickets.ts:42-58, 106-114, 136-148): the
  query stays null and the answer is 200 with null data. The model's closed
  role type cannot express such an account, so Authorization.Authorize,
  Login.Login, Tickets.GetTickets, Tickets.GetTicket and
  Tickets.GetTicketReplies do not cover it. Account creation does:
  Users.CreateUser stores whatever role text the request gives, as is.
- `createdAt` is a parameter `now`. `updatedAt` is not modelled.
- Request fields are strings. Non-string JSON bodies and the conversion of
  `params.id` from text to a number are not modelled. Ticket numbers are
  naturals.
- Users.CreateUser: the account schema is abstracted into a save outcome
  (`saveError`). This covers the username length and uniqueness and the
  required role. The model does not decide which document the database
  refuses.
- The accounts the gate consults are a map from id to role. The
  gate and the account collection of login are not tied together.
- Numbers are unbounded integers. JavaScript's floating-point limits on
  `parseInt` results and on `(page - 1) * limit` are not modelled.
