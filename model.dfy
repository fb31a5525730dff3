/** Entities of the ticket-management domain: users and their roles, tickets,
    comments, audit entries, the ticket-creation request, and the two error
    kinds the services raise. */
module Model {

  datatype Option<+T> = None | Some(value: T)

  /** The two roles a user may hold. */
  datatype Role = Employee | ITSupport

  /** Java's `name()` of a role constant. */
  function RoleName(r: Role): string
  {
    match r
    case Employee => "Employee"
    case ITSupport => "ITSupport"
  }

  const AuthorityPrefix: string := "ROLE_"

  /** `Role.getAuthority()`: the granted-authority string of a role. */
  function Authority(r: Role): (a: string)
    ensures |AuthorityPrefix| < |a| && a[..|AuthorityPrefix|] == AuthorityPrefix
    ensures a[|AuthorityPrefix|..] == RoleName(r)
  {
    AuthorityPrefix + RoleName(r)
  }

  /** The role type is closed: every role is one of the two constants. */
  lemma RoleIsClosed(r: Role)
    ensures r == Employee || r == ITSupport
  {
  }

  /** The authority strings are the constants' names behind the prefix, not
      the upper-case spellings the source's comment mentions. */
  lemma AuthorityValues()
    ensures Authority(Employee) == "ROLE_Employee"
    ensures Authority(ITSupport) == "ROLE_ITSupport"
  {
  }

  /** Distinct roles grant distinct authorities. */
  lemma AuthorityInjective(r1: Role, r2: Role)
    ensures Authority(r1) == Authority(r2) <==> r1 == r2
  {
    if Authority(r1) == Authority(r2) {
      assert RoleName(r1) == Authority(r1)[|AuthorityPrefix|..];
      assert RoleName(r1)[0] == RoleName(r2)[0];
    }
  }

  /** Ticket status. Only `NEW` is attested by the ticket and request
      defaults; the other constants stand for the rest of the lifecycle. */
  datatype Status = NEW | IN_PROGRESS | RESOLVED | CLOSED

  /** Java's `toString()` of a status constant, as string concatenation
      renders it. */
  function StatusName(s: Status): (n: string)
    ensures |n| > 0
  {
    match s
    case NEW => "NEW"
    case IN_PROGRESS => "IN_PROGRESS"
    case RESOLVED => "RESOLVED"
    case CLOSED => "CLOSED"
  }

  /** The first character of a status name already tells the status apart. */
  lemma StatusNameHeadDetermines(s1: Status, s2: Status)
    ensures StatusName(s1)[0] == StatusName(s2)[0] <==> s1 == s2
  {
  }

  /** Priority and category are enumerations whose constants the model does
      not need: a ticket only carries them from the request. */
  datatype Priority = Priority(name: string)
  datatype Category = Category(name: string)

  /** An instant read from the clock; the model treats it as opaque. */
  datatype Timestamp = Timestamp(instant: int)

  /** A user as the services see it. `role` is `None` where the stored role
      is null. The password is not part of the model. */
  datatype User = User(id: nat, name: string, role: Option<Role>)

  /** `MyUserDetails.getAuthorities()`: the single authority of a user,
      `"ROLE_"` followed by `String.valueOf` of the role. */
  function UserAuthorities(u: User): (a: seq<string>)
    ensures |a| == 1
    ensures u.role.Some? ==> a[0] == Authority(u.role.value)
    ensures u.role.None? ==> a[0] == "ROLE_null"
  {
    match u.role
    case Some(r) => [AuthorityPrefix + RoleName(r)]
    case None => [AuthorityPrefix + "null"]
  }

  datatype Ticket = Ticket(
    id: nat,
    title: string,
    description: string,
    priority: Priority,
    category: Category,
    creationDate: Timestamp,
    status: Status,
    createdBy: User)

  /** A comment holds the ticket as it was looked up when the comment was
      made, and its author. */
  datatype Comment = Comment(
    id: nat,
    content: string,
    ticket: Ticket,
    createdBy: User,
    createdAt: Timestamp)

  /** One audit entry: the described ticket's id (a plain number, not a
      reference), the acting user, when, and a free-text observation. */
  datatype AuditLog = AuditLog(
    id: nat,
    ticketId: nat,
    changedBy: User,
    creationDate: Timestamp,
    observation: string)

  /** The body of a ticket-creation call. */
  datatype TicketRequest = TicketRequest(
    title: string,
    description: string,
    priority: Priority,
    category: Category,
    creationDate: Timestamp,
    status: Status,
    createdBy: Option<User>)

  /** A request built with its field defaults: created now, status `NEW`,
      no creator. */
  function DefaultTicketRequest(title: string, description: string, priority: Priority,
                                category: Category, now: Timestamp): TicketRequest
  {
    TicketRequest(title, description, priority, category, now, NEW, None)
  }

  /** `AccessDeniedException` and the plain `RuntimeException` the services
      throw, with their messages. */
  datatype Error = PermissionDenied(message: string) | NotFound(message: string)

  datatype Result<+T> = Ok(value: T) | Err(error: Error)

  const UserNotFound: string := "User not found"
  const TicketNotFound: string := "Ticket not found"

  /** The operations of the service layer that are gated by role. */
  datatype Operation = CreateTicket | ViewOwnTickets | ViewAllTickets | UpdateStatus | AddComment

  /** The role table the services implement: employees create tickets and
      list their own, IT support lists all tickets, changes status and
      comments. A user without a role may do nothing. */
  predicate Permits(role: Option<Role>, op: Operation)
  {
    match op
    case CreateTicket => role == Some(Employee)
    case ViewOwnTickets => role == Some(Employee)
    case ViewAllTickets => role == Some(ITSupport)
    case UpdateStatus => role == Some(ITSupport)
    case AddComment => role == Some(ITSupport)
  }
}
