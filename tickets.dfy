/** The ticket service: creating tickets, listing them, the filter query, and
    changing a ticket's status with its audit entry. */
module Tickets {
  import opened Model
  import opened Repositories
  import opened Audit

  const OnlyEmployeesCreate: string := "Only employees can create tickets"
  const OnlyITSupportViewAll: string := "Only IT Support can access all tickets"
  const OnlyITSupportUpdate: string := "Only IT Support can update ticket status"
  const OnlyEmployeesView: string := "Only employees can view tickets"

  /** The ticket `createTicket` stores: the request's fields, the creator,
      and the next id of the ticket table. */
  function NewTicket(db: Db, req: TicketRequest, creator: User): Ticket
  {
    Ticket(db.nextTicketId, req.title, req.description, req.priority, req.category,
           req.creationDate, req.status, creator)
  }

  /** `createTicket(ticketRequest, employeeId)` */
  function CreateTicketStep(db: Db, req: TicketRequest, employeeId: nat): Outcome<Ticket>
  {
    if employeeId !in db.users then Outcome(Err(PermissionDenied(UserNotFound)), db)
    else
      var user := db.users[employeeId];
      if user.role != Some(Employee) then Outcome(Err(PermissionDenied(OnlyEmployeesCreate)), db)
      else
        var ticket := NewTicket(db, req, user);
        Outcome(Ok(ticket), db.(tickets := db.tickets + [ticket], nextTicketId := db.nextTicketId + 1))
  }

  /** Only an existing employee may create a ticket; otherwise the call is
      denied, with the message telling the two causes apart, and no table
      changes. */
  lemma CreateTicketAuthorization(db: Db, req: TicketRequest, employeeId: nat)
    ensures var o := CreateTicketStep(db, req, employeeId);
      && (o.result.Ok? <==> employeeId in db.users && Permits(db.users[employeeId].role, CreateTicket))
      && (employeeId !in db.users ==> o.result == Err(PermissionDenied(UserNotFound)))
      && (employeeId in db.users && o.result.Err? ==> o.result == Err(PermissionDenied(OnlyEmployeesCreate)))
      && (o.result.Err? ==> o.db == db)
  {
  }

  /** A created ticket is appended to the ticket table as the only change:
      it takes the request's fields, the caller as creator and a fresh id,
      and no audit entry is written. */
  lemma CreateTicketSuccess(db: Db, req: TicketRequest, employeeId: nat)
    requires CreateTicketStep(db, req, employeeId).result.Ok?
    ensures var o := CreateTicketStep(db, req, employeeId);
      var t := o.result.value;
      && o.db.tickets == db.tickets + [t]
      && t.id == db.nextTicketId
      && t.createdBy == db.users[employeeId]
      && t.title == req.title && t.description == req.description
      && t.priority == req.priority && t.category == req.category
      && t.creationDate == req.creationDate && t.status == req.status
      && o.db.users == db.users && o.db.comments == db.comments && o.db.auditLogs == db.auditLogs
  {
  }

  /** A ticket built from a request that keeps its default status starts
      out `NEW`. */
  lemma CreateFromDefaultRequestIsNew(db: Db, title: string, description: string, priority: Priority,
                                      category: Category, now: Timestamp, employeeId: nat)
    ensures var o := CreateTicketStep(db, DefaultTicketRequest(title, description, priority, category, now), employeeId);
      o.result.Ok? ==> o.result.value.status == NEW && o.result.value.creationDate == now
  {
  }

  lemma CreateTicketPreservesValid(db: Db, req: TicketRequest, employeeId: nat)
    requires ValidDb(db)
    ensures ValidDb(CreateTicketStep(db, req, employeeId).db)
  {
    var o := CreateTicketStep(db, req, employeeId);
    if o.result.Ok? {
      TicketIdsAppend(db.tickets, o.result.value);
    }
  }

  /** `getAllTickets(userId)`: IT support sees the whole ticket table. */
  function GetAllTickets(db: Db, userId: nat): (r: Result<seq<Ticket>>)
    ensures r.Ok? <==> userId in db.users && Permits(db.users[userId].role, ViewAllTickets)
    ensures r.Ok? ==> r.value == db.tickets
    ensures userId !in db.users ==> r == Err(PermissionDenied(UserNotFound))
    ensures userId in db.users && r.Err? ==> r == Err(PermissionDenied(OnlyITSupportViewAll))
  {
    if userId !in db.users then Err(PermissionDenied(UserNotFound))
    else if db.users[userId].role != Some(ITSupport) then Err(PermissionDenied(OnlyITSupportViewAll))
    else Ok(db.tickets)
  }

  /** `getTicketsByEmployee(employeeId)`: the user with that id must exist
      and be an employee; the answer is the tickets that user created. */
  function GetTicketsByEmployee(db: Db, employeeId: nat): (r: Result<seq<Ticket>>)
    ensures r.Ok? <==> employeeId in db.users && Permits(db.users[employeeId].role, ViewOwnTickets)
    ensures r.Ok? ==> forall t :: t in r.value <==> t in db.tickets && t.createdBy.id == employeeId
    ensures employeeId !in db.users ==> r == Err(PermissionDenied(UserNotFound))
    ensures employeeId in db.users && r.Err? ==> r == Err(PermissionDenied(OnlyEmployeesView))
  {
    if employeeId !in db.users then Err(PermissionDenied(UserNotFound))
    else if db.users[employeeId].role != Some(Employee) then Err(PermissionDenied(OnlyEmployeesView))
    else Ok(TicketsByCreatedById(db.tickets, employeeId))
  }

  /** A ticket agrees with the filters that are given. */
  predicate Matches(t: Ticket, ticketId: Option<nat>, status: Option<Status>)
  {
    && (ticketId.Some? ==> t.id == ticketId.value)
    && (status.Some? ==> t.status == status.value)
  }

  /** `getTickets(ticketId, status)`, where an absent filter is `None`. */
  function GetTickets(db: Db, ticketId: Option<nat>, status: Option<Status>): (r: seq<Ticket>)
    ensures forall t | t in r :: t in db.tickets && Matches(t, ticketId, status)
    ensures ticketId.None? || status.Some? ==>
              forall t | t in db.tickets && Matches(t, ticketId, status) :: t in r
    ensures ticketId.Some? && status.None? ==>
              |r| <= 1 && (r == [] <==> ticketId.value !in TicketIds(db.tickets))
    ensures ticketId.None? && status.None? ==> r == db.tickets
  {
    match (ticketId, status)
    case (Some(id), Some(s)) => TicketsByIdAndStatus(db.tickets, id, s)
    case (Some(id), None) =>
      (match FindTicketById(db.tickets, id)
       case Some(t) => [t]
       case None => [])
    case (None, Some(s)) => TicketsByStatus(db.tickets, s)
    case (None, None) => db.tickets
  }

  /** With distinct ticket ids, a query by id (with or without a status)
      returns exactly the ticket with that id when it matches, and nothing
      otherwise. */
  lemma GetTicketsById(db: Db, i: nat, status: Option<Status>)
    requires DistinctIds(db.tickets) && i < |db.tickets|
    ensures var t := db.tickets[i];
      GetTickets(db, Some(t.id), status) == if Matches(t, None, status) then [t] else []
  {
    var t := db.tickets[i];
    var r := GetTickets(db, Some(t.id), status);
    FindTicketByIdAt(db.tickets, i);
    if status.Some? {
      TicketsByIdAndStatusAtMostOne(db.tickets, t.id, status.value);
      assert t in db.tickets;
      if Matches(t, None, status) {
        assert t in r;
        assert r[0] == t;
      } else {
        forall u | u in db.tickets ensures !(u.id == t.id && u.status == status.value) {
          var j :| 0 <= j < |db.tickets| && db.tickets[j] == u;
        }
        FilterNone(db.tickets, (u: Ticket) => u.id == t.id && u.status == status.value);
      }
    }
  }

  /** With distinct ticket ids, a query by id never returns more than one
      ticket. */
  lemma GetTicketsByIdAtMostOne(db: Db, id: nat, status: Option<Status>)
    requires DistinctIds(db.tickets)
    ensures |GetTickets(db, Some(id), status)| <= 1
  {
    if status.Some? {
      TicketsByIdAndStatusAtMostOne(db.tickets, id, status.value);
    }
  }

  /** After an employee creates a ticket, that employee's list is the old
      list with the new ticket at its end, and a query by the new id finds
      exactly it. */
  lemma {:induction false} CreateThenQuery(db: Db, req: TicketRequest, employeeId: nat)
    requires ValidDb(db)
    requires CreateTicketStep(db, req, employeeId).result.Ok?
    ensures var o := CreateTicketStep(db, req, employeeId);
      var t := o.result.value;
      && GetTicketsByEmployee(db, employeeId).Ok?
      && GetTicketsByEmployee(o.db, employeeId) == Ok(GetTicketsByEmployee(db, employeeId).value + [t])
      && GetTickets(o.db, Some(t.id), None) == [t]
  {
    var o := CreateTicketStep(db, req, employeeId);
    var t := o.result.value;
    FilterAppend(db.tickets, t, (u: Ticket) => u.createdBy.id == employeeId);
    CreateTicketPreservesValid(db, req, employeeId);
    assert o.db.tickets[|db.tickets|] == t;
    GetTicketsById(o.db, |db.tickets|, None);
  }

  /** `updateTicketStatus(ticketId, newStatus, userId)` */
  function UpdateTicketStatusStep(db: Db, ticketId: nat, newStatus: Status, userId: nat, now: Timestamp): Outcome<Ticket>
  {
    if userId !in db.users then Outcome(Err(PermissionDenied(UserNotFound)), db)
    else
      var user := db.users[userId];
      if user.role != Some(ITSupport) then Outcome(Err(PermissionDenied(OnlyITSupportUpdate)), db)
      else
        match FindTicketById(db.tickets, ticketId)
        case None => Outcome(Err(NotFound(TicketNotFound)), db)
        case Some(ticket) =>
          var updated := ticket.(status := newStatus);
          var saved := db.(tickets := ReplaceTicket(db.tickets, updated));
          Outcome(Ok(updated), LogStatusChangeStep(saved, ticketId, user, ticket.status, newStatus, now))
  }

  /** A status change succeeds exactly when the user exists, is IT support
      and the ticket exists, whatever the old and new status: there is no
      transition guard. The user is checked before the ticket, and a failed
      call changes no table. */
  lemma UpdateTicketStatusAuthorization(db: Db, ticketId: nat, newStatus: Status, userId: nat, now: Timestamp)
    ensures var o := UpdateTicketStatusStep(db, ticketId, newStatus, userId, now);
      && (o.result.Ok? <==>
            userId in db.users && Permits(db.users[userId].role, UpdateStatus) && ticketId in TicketIds(db.tickets))
      && (userId !in db.users ==> o.result == Err(PermissionDenied(UserNotFound)))
      && (userId in db.users && !Permits(db.users[userId].role, UpdateStatus) ==>
            o.result == Err(PermissionDenied(OnlyITSupportUpdate)))
      && (userId in db.users && Permits(db.users[userId].role, UpdateStatus) && ticketId !in TicketIds(db.tickets) ==>
            o.result == Err(NotFound(TicketNotFound)))
      && (o.result.Err? ==> o.db == db)
  {
  }

  /** A successful status change sets the status of the target ticket and
      changes nothing else in the ticket table, returns the updated ticket,
      and appends exactly one audit entry by the acting user about that
      ticket whose text records the status before and after, even when the
      two are equal. */
  lemma UpdateTicketStatusSuccess(db: Db, ticketId: nat, newStatus: Status, userId: nat, now: Timestamp)
    requires UpdateTicketStatusStep(db, ticketId, newStatus, userId, now).result.Ok?
    ensures var o := UpdateTicketStatusStep(db, ticketId, newStatus, userId, now);
      var before := FindTicketById(db.tickets, ticketId).value;
      var user := db.users[userId];
      && o.result.value == before.(status := newStatus)
      && |o.db.tickets| == |db.tickets|
      && (forall i | 0 <= i < |db.tickets| ::
            o.db.tickets[i] == if db.tickets[i].id == ticketId then o.result.value else db.tickets[i])
      && o.db.users == db.users && o.db.comments == db.comments
      && o.db.auditLogs == db.auditLogs
           + [NextAuditLog(db, ticketId, user, StatusChangeObservation(user.name, ticketId, before.status, newStatus), now)]
  {
  }

  /** A successful status change adds one entry at the end of the changed
      ticket's audit trail and leaves every other ticket's trail as it was. */
  lemma UpdateTicketStatusAuditTrail(db: Db, ticketId: nat, newStatus: Status, userId: nat, now: Timestamp, other: nat)
    requires UpdateTicketStatusStep(db, ticketId, newStatus, userId, now).result.Ok?
    ensures var o := UpdateTicketStatusStep(db, ticketId, newStatus, userId, now);
      var before := FindTicketById(db.tickets, ticketId).value;
      var user := db.users[userId];
      var entry := NextAuditLog(db, ticketId, user, StatusChangeObservation(user.name, ticketId, before.status, newStatus), now);
      GetAuditLogsForTicket(o.db, other) == GetAuditLogsForTicket(db, other) + (if other == ticketId then [entry] else [])
  {
    var before := FindTicketById(db.tickets, ticketId).value;
    var user := db.users[userId];
    var saved := db.(tickets := ReplaceTicket(db.tickets, before.(status := newStatus)));
    SaveAuditLogForTicket(saved, ticketId, user, StatusChangeObservation(user.name, ticketId, before.status, newStatus), now, other);
  }

  lemma UpdateTicketStatusPreservesValid(db: Db, ticketId: nat, newStatus: Status, userId: nat, now: Timestamp)
    requires ValidDb(db)
    ensures ValidDb(UpdateTicketStatusStep(db, ticketId, newStatus, userId, now).db)
  {
    var o := UpdateTicketStatusStep(db, ticketId, newStatus, userId, now);
    if o.result.Ok? {
      var before := FindTicketById(db.tickets, ticketId).value;
      var updated := before.(status := newStatus);
      var saved := db.(tickets := ReplaceTicket(db.tickets, updated));
      ReplaceTicketKeepsIds(db.tickets, updated);
      assert ValidDb(saved);
      SaveAuditLogPreservesValid(saved, ticketId, db.users[userId],
        StatusChangeObservation(db.users[userId].name, ticketId, before.status, newStatus), now);
    }
  }

  /** After a successful status change, a query by the ticket's id returns
      the updated ticket. */
  lemma UpdateThenQuery(db: Db, ticketId: nat, newStatus: Status, userId: nat, now: Timestamp)
    requires ValidDb(db)
    requires UpdateTicketStatusStep(db, ticketId, newStatus, userId, now).result.Ok?
    ensures var o := UpdateTicketStatusStep(db, ticketId, newStatus, userId, now);
      GetTickets(o.db, Some(ticketId), None) == [o.result.value]
      && GetTickets(o.db, Some(ticketId), Some(newStatus)) == [o.result.value]
  {
    var o := UpdateTicketStatusStep(db, ticketId, newStatus, userId, now);
    UpdateTicketStatusPreservesValid(db, ticketId, newStatus, userId, now);
    var before := FindTicketById(db.tickets, ticketId).value;
    var i :| 0 <= i < |db.tickets| && db.tickets[i] == before;
    assert o.db.tickets[i] == o.result.value;
    GetTicketsById(o.db, i, None);
    GetTicketsById(o.db, i, Some(newStatus));
  }

  /** The ticket service over the shared store, posting its audit entries
      through the audit service of the same store. */
  class TicketService {
    const store: Store
    const auditLogService: AuditLogService

    constructor (store: Store, auditLogService: AuditLogService)
      requires auditLogService.store == store
      ensures this.store == store && this.auditLogService == auditLogService
    {
      this.store := store;
      this.auditLogService := auditLogService;
    }

    method CreateTicket(req: TicketRequest, employeeId: nat) returns (r: Result<Ticket>)
      requires store.Valid()
      modifies store
      ensures Outcome(r, store.State()) == CreateTicketStep(old(store.State()), req, employeeId)
      ensures store.Valid()
    {
      CreateTicketPreservesValid(store.State(), req, employeeId);
      if employeeId !in store.users {
        return Err(PermissionDenied(UserNotFound));
      }
      var user := store.users[employeeId];
      if user.role != Some(Employee) {
        return Err(PermissionDenied(OnlyEmployeesCreate));
      }
      var ticket := Ticket(store.nextTicketId, req.title, req.description, req.priority, req.category,
                           req.creationDate, req.status, user);
      store.tickets := store.tickets + [ticket];
      store.nextTicketId := store.nextTicketId + 1;
      r := Ok(ticket);
    }

    method UpdateTicketStatus(ticketId: nat, newStatus: Status, userId: nat, now: Timestamp) returns (r: Result<Ticket>)
      requires auditLogService.store == store
      requires store.Valid()
      modifies store
      ensures Outcome(r, store.State()) == UpdateTicketStatusStep(old(store.State()), ticketId, newStatus, userId, now)
      ensures store.Valid()
    {
      UpdateTicketStatusPreservesValid(store.State(), ticketId, newStatus, userId, now);
      if userId !in store.users {
        return Err(PermissionDenied(UserNotFound));
      }
      var user := store.users[userId];
      if user.role != Some(ITSupport) {
        return Err(PermissionDenied(OnlyITSupportUpdate));
      }
      var found := FindTicketById(store.tickets, ticketId);
      if found.None? {
        return Err(NotFound(TicketNotFound));
      }
      var ticket := found.value;
      var oldStatus := ticket.status;
      ticket := ticket.(status := newStatus);
      store.tickets := ReplaceTicket(store.tickets, ticket);
      auditLogService.LogStatusChange(ticketId, user, oldStatus, newStatus, now);
      r := Ok(ticket);
    }
  }
}
