# Ticket management: a verified model of the role-gated ticket lifecycle

This project models the service layer of a help-desk application. Employees
raise support tickets. IT support staff list all tickets, change a ticket's
status and comment on tickets. Every status change and every comment leaves
one entry in an append-only audit log.

The model runs against an in-memory store: a map of users keyed by id,
ordered tables of tickets, comments and audit entries, and one next-id
counter per table (the identity columns, starting at 1).

Modules, one per part of the source:

- `Model` (`model.dfy`): the entities. It has the two-value `Role` with its
  authority string, `Status`, users, tickets, comments, audit entries and the
  creation request. It also has the error kinds `PermissionDenied` (the
  source's `AccessDeniedException`) and `NotFound` (its
  `RuntimeException("Ticket not found")`), and `Permits`, the role table
  that the services implement.
- `Text` (`text.dfy`): decimal rendering of ticket ids, as string
  concatenation writes a `Long`.
- `Repositories` (`repositories.dfy`): the derived queries as an
  order-preserving `Filter`, and `findById` and `save`. It also holds the
  `Db` value of all tables, the table invariant `ValidDb`, and the `Store`
  class whose fields the services update in place.
- `Audit` (`audit.dfy`): `AuditLogService`. It holds the two observation texts,
  `saveAuditLog` and the per-ticket query.
- `Tickets` (`tickets.dfy`): `TicketService`. It holds `createTicket`,
  `getAllTickets`, `getTicketsByEmployee`, `getTickets` and
  `updateTicketStatus`.
- `Comments` (`comments.dfy`): `CommentService.addComment`.

Each state-changing operation has two parts:

- A pure step function on `Db`, such as `CreateTicketStep` or
  `UpdateTicketStatusStep`, that returns the result and the new tables. The
  lemmas state the operation's properties about this function.
- A method on a service class. The class holds the shared `Store`, as the
  Spring beans share their repositories. The method performs the checks and
  the updates in the source's order. Its postcondition equates the store's
  new state with the step function applied to the old state. It also keeps
  the store invariant.

Read-only operations are functions on `Db`.

The caller is an explicit user-id argument. The clock is a `now: Timestamp`
parameter.

The model follows the code in three places where a reader might expect
otherwise:

- `createTicket` copies the status from the request. It does not force `NEW`
  on a new ticket. A ticket starts as `NEW` only when the request keeps its
  default status (`CreateFromDefaultRequestIsNew`).
- `getTicketsByEmployee` takes only `employeeId`. It checks that the user with
  that id exists and is an employee, then lists that user's tickets. Nothing
  in the service checks that a caller is asking about their own tickets.
- `Role.getAuthority()` returns `"ROLE_Employee"` and `"ROLE_ITSupport"`,
  which are the constants' names. The upper-case strings in the source's
  comment are wrong (`AuthorityValues`).

`Status.java`, `Priority.java`, `Category.java` and `User.java` are not part
of this model. Only the status constant `NEW` is attested (`Ticket.java:33`).
The model's `Status` adds `IN_PROGRESS`, `RESOLVED` and `CLOSED` for the
rest of the lifecycle. Priority and category are opaque values that a ticket
copies from the request.

## Model

| member | source | states |
|---|---|---|
| `Model.Authority` | src/main/java/com/example/ticketmanagement/model/Role.java:6-8 | the authority is the prefix `ROLE_` followed by the role constant's name |
| `Model.AuthorityValues` | src/main/java/com/example/ticketmanagement/model/Role.java:6-8 | the two authorities are exactly `ROLE_Employee` and `ROLE_ITSupport` |
| `Model.AuthorityInjective` | src/main/java/com/example/ticketmanagement/model/Role.java:6-8 | two roles have the same authority if and only if they are the same role |
| `Model.RoleIsClosed` | src/main/java/com/example/ticketmanagement/model/Role.java:3-4 | every role is `Employee` or `ITSupport` |
| `Model.UserAuthorities` | src/main/java/com/example/ticketmanagement/model/MyUserDetails.java:21-27 | a user has exactly one authority: `Authority` of their role, or `ROLE_null` when the role is null |
| `Model.RoleName` | src/main/java/com/example/ticketmanagement/model/Role.java:4-7 | the definition: `name()` of each role constant, the text behind `ROLE_`; `Authority`, `AuthorityValues` and `AuthorityInjective` carry its properties |
| `Model.StatusName` | src/main/java/com/example/ticketmanagement/service/AuditLogService.java:22-24 | the definition: how a status renders in string concatenation; `StatusNameHeadDetermines` carries its property |
| `Model.StatusNameHeadDetermines` | src/main/java/com/example/ticketmanagement/service/AuditLogService.java:22-24 | two status names have the same first character if and only if they are the same status |
| `Text.NatText` | src/main/java/com/example/ticketmanagement/service/AuditLogService.java:22-23 | an id renders as a non-empty string of decimal digits, with no leading zero unless the id is 0 |
| `Text.DigitsValueOfNatText` | src/main/java/com/example/ticketmanagement/service/AuditLogService.java:22-23 | reading the decimal rendering back gives the id |
| `Text.NatTextInjective` | src/main/java/com/example/ticketmanagement/service/AuditLogService.java:22-23 | two ids render the same if and only if they are equal |
| `Repositories.Filter` | src/main/java/com/example/ticketmanagement/repository/TicketRepository.java:16-22 | a derived query returns only stored rows, and a row is in the answer if and only if it is stored and satisfies the condition |
| `Repositories.FilterMultiset` | src/main/java/com/example/ticketmanagement/repository/TicketRepository.java:16-22 | a query keeps each matching row as often as it is stored and drops every other row |
| `Repositories.FilterAppend` | src/main/java/com/example/ticketmanagement/repository/TicketRepository.java:16-22 | after a row is appended, a query returns its old answer, followed by the new row exactly when the row matches (stored order is kept) |
| `Repositories.FilterNone` | src/main/java/com/example/ticketmanagement/repository/TicketRepository.java:16-22 | a query that no stored row satisfies returns the empty list |
| `Repositories.FindTicketById` | src/main/java/com/example/ticketmanagement/service/TicketService.java:111-112 | `findById` finds a ticket if and only if the id is stored, and what it finds is stored and has that id |
| `Repositories.FindTicketByIdAt` | src/main/java/com/example/ticketmanagement/service/TicketService.java:111-112 | when ticket ids are distinct, `findById` returns exactly the row with that id |
| `Repositories.ReplaceTicket` | src/main/java/com/example/ticketmanagement/service/TicketService.java:119 | the definition: `save` of a stored ticket replaces the row with its id in place; `ReplaceTicketKeepsIds`, `UpdateTicketStatusSuccess` and `UpdateThenQuery` carry its properties |
| `Repositories.TicketsByCreatedById` | src/main/java/com/example/ticketmanagement/repository/TicketRepository.java:18 | the definition: `findByCreatedById` is `Filter` on the creator's id; `GetTicketsByEmployee` and `CreateThenQuery` carry its properties |
| `Repositories.TicketsByIdAndStatus` | src/main/java/com/example/ticketmanagement/repository/TicketRepository.java:20 | the definition: `findByIdAndStatus` is `Filter` on id and status; `TicketsByIdAndStatusAtMostOne`, `GetTickets` and `GetTicketsById` carry its properties |
| `Repositories.TicketsByStatus` | src/main/java/com/example/ticketmanagement/repository/TicketRepository.java:22 | the definition: `findByStatus` is `Filter` on the status; `GetTickets` carries its properties |
| `Repositories.AuditLogsByTicketId` | src/main/java/com/example/ticketmanagement/service/AuditLogService.java:48 | the definition: `findByTicketId` on the audit table is `Filter` on the ticket id; `GetAuditLogsForTicket` and `SaveAuditLogForTicket` carry its properties |
| `Repositories.ReplaceTicketKeepsIds` | src/main/java/com/example/ticketmanagement/service/TicketService.java:116-119 | saving an already stored ticket keeps the set of stored ticket ids |
| `Repositories.TicketIdsAppend` | src/main/java/com/example/ticketmanagement/service/TicketService.java:66 | saving a new ticket adds its id to the stored ids and keeps the others |
| `Repositories.CommentsByTicketId` | src/main/java/com/example/ticketmanagement/model/Ticket.java:39-40 | the definition: `Ticket.comments`, the comments whose ticket has that id, as `Filter` in stored order; `AddCommentPerTicket` carries its property |
| `Repositories.TicketsByIdAndStatusAtMostOne` | src/main/java/com/example/ticketmanagement/repository/TicketRepository.java:20 | when ticket ids are distinct, `findByIdAndStatus` returns at most one ticket |
| `Repositories.EmptyDbValid` | src/main/java/com/example/ticketmanagement/model/Ticket.java:17-19 | an empty store whose users are keyed by their own ids satisfies the table invariant |
| `Repositories.Store.constructor` | src/main/java/com/example/ticketmanagement/model/Ticket.java:17-19 | a new store holds the given users, no tickets, comments or audit entries, and starts each identity column at 1 |
| `Audit.StatusChangeObservation` | src/main/java/com/example/ticketmanagement/service/AuditLogService.java:22-24 | the definition: the exact status-change text, with the user's name, the ticket id in decimal and the two status names; `StatusChangeObservationDetermines` carries its property |
| `Audit.CommentObservation` | src/main/java/com/example/ticketmanagement/service/AuditLogService.java:30-32 | the definition: the exact comment text, with the user's name, the ticket id in decimal and the comment; `CommentObservationDetermines` carries its property |
| `Audit.SaveAuditLogStep` | src/main/java/com/example/ticketmanagement/service/AuditLogService.java:37-44 | the definition: `saveAuditLog` appends the entry built by `NextAuditLog` (AuditLogService.java:37-41), with the next audit id; `SaveAuditLogAppendsOne`, `SaveAuditLogForTicket` and `SaveAuditLogPreservesValid` carry its properties |
| `Audit.LogStatusChangeStep` | src/main/java/com/example/ticketmanagement/service/AuditLogService.java:21-26 | the definition: `logStatusChange` saves one entry with the status-change text; `UpdateTicketStatusSuccess` and `UpdateTicketStatusAuditTrail` carry its properties |
| `Audit.LogCommentAdditionStep` | src/main/java/com/example/ticketmanagement/service/AuditLogService.java:29-34 | the definition: `logCommentAddition` saves one entry with the comment text; `AddCommentSuccess` and `AddCommentPerTicket` carry its properties |
| `Audit.StatusChangeObservationDetermines` | src/main/java/com/example/ticketmanagement/service/AuditLogService.java:21-25 | for a given actor and ticket, the status-change text determines both the old and the new status |
| `Audit.CommentObservationDetermines` | src/main/java/com/example/ticketmanagement/service/AuditLogService.java:29-33 | for a given actor and ticket, the comment text determines the comment |
| `Audit.GetAuditLogsForTicket` | src/main/java/com/example/ticketmanagement/service/AuditLogService.java:47-49 | an entry is in the answer if and only if it is stored and describes that ticket (stored order, by `Filter`) |
| `Audit.SaveAuditLogAppendsOne` | src/main/java/com/example/ticketmanagement/service/AuditLogService.java:37-44 | saving appends exactly one entry with the given ticket id, user and text, keeps every earlier entry, and changes no other table |
| `Audit.SaveAuditLogForTicket` | src/main/java/com/example/ticketmanagement/service/AuditLogService.java:37-49 | saving for ticket A adds the entry at the end of A's entries and leaves the entries of every other ticket unchanged |
| `Audit.SaveAuditLogPreservesValid` | src/main/java/com/example/ticketmanagement/service/AuditLogService.java:37-44 | an entry by IT support about a stored ticket keeps the table invariant |
| `Audit.AuditLogService.LogStatusChange` | src/main/java/com/example/ticketmanagement/service/AuditLogService.java:21-26 | the new store is `LogStatusChangeStep` of the old one: one more entry with the status-change text for the given ticket, user and statuses, and nothing else changed. The store invariant is kept when the user is IT support and the ticket is stored |
| `Audit.AuditLogService.LogCommentAddition` | src/main/java/com/example/ticketmanagement/service/AuditLogService.java:29-34 | the new store is `LogCommentAdditionStep` of the old one: one more entry with the comment text for the given ticket, user and comment, and nothing else changed. The store invariant is kept when the user is IT support and the ticket is stored |
| `Audit.AuditLogService.SaveAuditLog` | src/main/java/com/example/ticketmanagement/service/AuditLogService.java:37-44 | the new state is the old one with the entry appended and the audit id counter advanced. The store invariant is kept when the user is IT support and the ticket is stored |
| `Tickets.CreateTicketStep` | src/main/java/com/example/ticketmanagement/service/TicketService.java:32-70 | the definition: the two role checks of `createTicket`, then the insert of the new ticket built by `NewTicket` (TicketService.java:54-63); `CreateTicketAuthorization`, `CreateTicketSuccess`, `CreateFromDefaultRequestIsNew`, `CreateTicketPreservesValid` and `CreateThenQuery` carry its properties |
| `Tickets.CreateTicketAuthorization` | src/main/java/com/example/ticketmanagement/service/TicketService.java:35-49 | creation succeeds if and only if the user exists and `Permits` creating (role Employee). A missing user gets `PermissionDenied("User not found")` and a wrong role gets the employees-only denial. A failure changes no table |
| `Tickets.CreateTicketSuccess` | src/main/java/com/example/ticketmanagement/service/TicketService.java:54-69 | on success exactly one ticket is appended. It gets the next id and the caller as creator, and copies title, description, priority, category, creation date and status from the request. No audit entry is written; users and comments are unchanged |
| `Model.DefaultTicketRequest` | src/main/java/com/example/ticketmanagement/request/TicketRequest.java:28-31 | the definition: a request built with its field defaults, created now with status `NEW` and no creator; `CreateFromDefaultRequestIsNew` carries its property |
| `Tickets.CreateFromDefaultRequestIsNew` | src/main/java/com/example/ticketmanagement/request/TicketRequest.java:28-31 | a ticket created from a request that keeps its defaults has status `NEW` and the request's creation time |
| `Tickets.CreateTicketPreservesValid` | src/main/java/com/example/ticketmanagement/service/TicketService.java:54-69 | creation keeps the table invariant, including "every ticket was created by an employee" |
| `Tickets.GetAllTickets` | src/main/java/com/example/ticketmanagement/service/TicketService.java:75-91 | allowed if and only if the user exists and is IT support, and then returns the whole ticket table. Otherwise it returns the denial for a missing user or the one for a wrong role |
| `Tickets.GetTicketsByEmployee` | src/main/java/com/example/ticketmanagement/service/TicketService.java:127-150 | allowed if and only if the user with `employeeId` exists and is an employee. Then a ticket is in the answer if and only if it is stored and was created by that id. Otherwise it gives the two denials |
| `Tickets.GetTickets` | src/main/java/com/example/ticketmanagement/service/TicketService.java:152-192 | the answer contains only stored tickets that match the given filters. Id and status, or status alone, return every match. Id alone returns at most one ticket, and returns none exactly when the id is absent, without an error. No filter returns all tickets |
| `Tickets.GetTicketsById` | src/main/java/com/example/ticketmanagement/service/TicketService.java:168-180 | when ticket ids are distinct, a query by a stored id returns exactly that ticket, or nothing when a status is given and differs |
| `Tickets.GetTicketsByIdAtMostOne` | src/main/java/com/example/ticketmanagement/service/TicketService.java:168-180 | when ticket ids are distinct, a query by id, with or without a status, returns at most one ticket |
| `Tickets.CreateThenQuery` | src/main/java/com/example/ticketmanagement/service/TicketService.java:54-69 | after an employee creates a ticket, their list is the old list with the new ticket at its end, and a query by the new id returns exactly that ticket |
| `Tickets.UpdateTicketStatusStep` | src/main/java/com/example/ticketmanagement/service/TicketService.java:96-125 | the definition: the user, role and ticket checks of `updateTicketStatus`, then the save of the changed ticket and the status-change entry; `UpdateTicketStatusAuthorization`, `UpdateTicketStatusSuccess`, `UpdateTicketStatusAuditTrail`, `UpdateTicketStatusPreservesValid` and `UpdateThenQuery` carry its properties |
| `Tickets.UpdateTicketStatusAuthorization` | src/main/java/com/example/ticketmanagement/service/TicketService.java:96-112 | the update succeeds if and only if the user exists, is IT support and the ticket exists, for any old and new status. Failures are, in order: a missing user, a wrong role, and `NotFound`. A failure changes no table |
| `Tickets.UpdateTicketStatusSuccess` | src/main/java/com/example/ticketmanagement/service/TicketService.java:114-124 | on success the returned ticket is the old one with only the status changed. Every row with another id is unchanged. Exactly one audit entry by the acting user is appended, recording the old status and the new one, even when they are equal. Users and comments are unchanged |
| `Tickets.UpdateTicketStatusAuditTrail` | src/main/java/com/example/ticketmanagement/service/TicketService.java:114-122 | on success the ticket's audit trail grows by that one entry at its end, and every other ticket's trail is unchanged |
| `Tickets.UpdateTicketStatusPreservesValid` | src/main/java/com/example/ticketmanagement/service/TicketService.java:96-125 | a status update keeps the table invariant |
| `Tickets.UpdateThenQuery` | src/main/java/com/example/ticketmanagement/service/TicketService.java:114-119 | after a successful update, a query by the ticket's id, alone or with the new status, returns exactly the updated ticket |
| `Tickets.TicketService.CreateTicket` | src/main/java/com/example/ticketmanagement/service/TicketService.java:32-70 | the returned result and the new store are those of `CreateTicketStep` on the old store, and the store invariant holds afterwards |
| `Tickets.TicketService.UpdateTicketStatus` | src/main/java/com/example/ticketmanagement/service/TicketService.java:96-125 | the result and the new store are those of `UpdateTicketStatusStep` on the old store, and the invariant holds afterwards. The body saves the ticket before it writes the audit entry, as the source does |
| `Comments.AddCommentStep` | src/main/java/com/example/ticketmanagement/service/CommentService.java:27-53 | the definition: the user and role checks of `addComment`, the ticket lookup, then the save of the comment built by `NewComment` (CommentService.java:42-45) and the comment entry; `AddCommentAuthorization`, `AddCommentSuccess`, `AddCommentPerTicket` and `AddCommentPreservesValid` carry its properties |
| `Comments.AddCommentAuthorization` | src/main/java/com/example/ticketmanagement/service/CommentService.java:27-39 | adding succeeds if and only if the user exists, is IT support (a null role is denied) and the ticket exists. A missing user gets `PermissionDenied("User not found")`. Any other caller who is not IT support is denied even when the ticket is missing. Only an IT support caller gets `NotFound`. A failure changes no table |
| `Comments.AddCommentSuccess` | src/main/java/com/example/ticketmanagement/service/CommentService.java:41-52 | on success exactly one comment is appended and returned: the looked-up ticket, the caller and the given text. Exactly one audit entry by the caller with the comment text is appended. Tickets and users are unchanged |
| `Comments.AddCommentPerTicket` | src/main/java/com/example/ticketmanagement/service/CommentService.java:42-50 | on success the ticket's comments and its audit trail each grow by one entry at the end, and every other ticket's comments and trail are unchanged |
| `Comments.AddCommentPreservesValid` | src/main/java/com/example/ticketmanagement/service/CommentService.java:27-53 | adding a comment keeps the table invariant, including "every comment was written by IT support on a stored ticket" |
| `Comments.CommentService.AddComment` | src/main/java/com/example/ticketmanagement/service/CommentService.java:27-53 | the result and the new store are those of `AddCommentStep` on the old store, and the invariant holds afterwards. The body saves the comment before it writes the audit entry, as the source does |

## Left out

- Controllers: HTTP routing, the mapping to status codes, and the lookup of
  the current user in the security context. They are transport. The caller is
  a user-id argument instead. Note that `CommentController` catches
  `EntityNotFoundException`, while the service throws a plain
  `RuntimeException` for a missing ticket.
- `UserService`: password hashing, `loadUserByUsername` and `getCurrentUser`.
  These are calls into the security library and ambient state. The user
  table is given to the store's constructor and never changes.
- Persistence mechanics: entity identity and lazy references, the cascade
  from ticket to comments, and `findByCreatedBy(User)`. The latter is
  declared but the service never calls it. A comment holds the ticket value
  as it was looked up. `Ticket.comments` is the derived query
  `CommentsByTicketId`.
- Timestamps: `LocalDateTime.now()` is a `Timestamp` parameter. Nothing is
  assumed about its value. `addComment` takes a single `now` and uses it both
  for the comment's creation time and for its audit entry's time. The source
  reads the clock twice, once when the comment is built (`Comment.java:31`,
  `CommentService.java:42`) and once in `saveAuditLog`
  (`AuditLogService.java:40`), so the two instants may differ. No lemma
  depends on them being equal.
- Logging through slf4j: it is output only.
- Failing repository calls: every `save` and `findById` is assumed to
  succeed. The source has no `@Transactional`. `updateTicketStatus` saves the
  ticket (`TicketService.java:119`) before it logs (`:122`), and `addComment`
  saves the comment (`CommentService.java:47`) before it logs (`:50`). So in
  the source a failed audit save leaves the status change or the comment
  stored without its audit entry, and the call throws. The model has no such
  path.
- Concurrent writers: the source takes no locks. Each operation is modelled
  as one step on a store that nobody else changes meanwhile.
- Null arguments: the model does not cover a null ticket status, a null
  request status, a null `newStatus`, null ids or a null user name. A null
  role is modelled. A null `content` in `addComment` is not modelled either;
  the source would store it and render it as `null` in the audit text.
- Negative ids: ids are `nat`, but the source takes `Long`. A negative ticket
  or user id reaches `findById` and behaves as a missing one: `NotFound`, a
  denial for a missing user, or an empty list. The model cannot express that
  call.
- Invalid status text in a request: it is rejected while the request is
  parsed, before the service runs.
- `Tickets.GetTickets`: id-only completeness (the one returned ticket is the
  stored one with that id) holds only when ids are distinct. It is stated
  separately in `GetTicketsById`.
- `Audit.StatusChangeObservationDetermines`: proved only for the status
  constants the model assumes. `Status.java` is not part of this model, and
  the proof relies on the assumed names having distinct first letters
  (`StatusNameHeadDetermines`).
