/** The comment service: IT support attaches a comment to a ticket, and the
    addition is recorded in the audit trail. */
module Comments {
  import opened Model
  import opened Repositories
  import opened Audit

  const OnlyITSupportComment: string := "Only IT Support can add comments"

  /** The comment `addComment` stores. */
  function NewComment(db: Db, content: string, ticket: Ticket, author: User, now: Timestamp): Comment
  {
    Comment(db.nextCommentId, content, ticket, author, now)
  }

  /** `addComment(ticketId, content, userId)` */
  function AddCommentStep(db: Db, ticketId: nat, content: string, userId: nat, now: Timestamp): Outcome<Comment>
  {
    if userId !in db.users then Outcome(Err(PermissionDenied(UserNotFound)), db)
    else
      var user := db.users[userId];
      if user.role.None? || user.role.value != ITSupport then Outcome(Err(PermissionDenied(OnlyITSupportComment)), db)
      else
        match FindTicketById(db.tickets, ticketId)
        case None => Outcome(Err(NotFound(TicketNotFound)), db)
        case Some(ticket) =>
          var comment := NewComment(db, content, ticket, user, now);
          var saved := db.(comments := db.comments + [comment], nextCommentId := db.nextCommentId + 1);
          Outcome(Ok(comment), LogCommentAdditionStep(saved, ticketId, user, content, now))
  }

  /** A comment is accepted exactly when the user exists, is IT support and
      the ticket exists. The role is checked before the ticket is looked up,
      so a caller who is not IT support is denied even on a missing ticket.
      A failed call changes no table. */
  lemma AddCommentAuthorization(db: Db, ticketId: nat, content: string, userId: nat, now: Timestamp)
    ensures var o := AddCommentStep(db, ticketId, content, userId, now);
      && (o.result.Ok? <==>
            userId in db.users && Permits(db.users[userId].role, AddComment) && ticketId in TicketIds(db.tickets))
      && (userId !in db.users ==> o.result == Err(PermissionDenied(UserNotFound)))
      && (userId in db.users && !Permits(db.users[userId].role, AddComment) ==>
            o.result == Err(PermissionDenied(OnlyITSupportComment)))
      && (userId in db.users && Permits(db.users[userId].role, AddComment) && ticketId !in TicketIds(db.tickets) ==>
            o.result == Err(NotFound(TicketNotFound)))
      && (o.result.Err? ==> o.db == db)
  {
  }

  /** A successful call stores exactly one comment on the looked-up ticket,
      by the caller, with the given text, and returns it; it appends exactly
      one audit entry by the caller about that ticket carrying the text; the
      ticket table and the users are untouched. */
  lemma AddCommentSuccess(db: Db, ticketId: nat, content: string, userId: nat, now: Timestamp)
    requires AddCommentStep(db, ticketId, content, userId, now).result.Ok?
    ensures var o := AddCommentStep(db, ticketId, content, userId, now);
      var c := o.result.value;
      var user := db.users[userId];
      && o.db.comments == db.comments + [c]
      && c.id == db.nextCommentId
      && Some(c.ticket) == FindTicketById(db.tickets, ticketId)
      && c.createdBy == user && c.content == content
      && o.db.auditLogs == db.auditLogs
           + [NextAuditLog(db, ticketId, user, CommentObservation(user.name, ticketId, content), now)]
      && o.db.tickets == db.tickets && o.db.users == db.users
  {
  }

  /** A successful call adds the comment at the end of the ticket's comments
      and leaves the comments of every other ticket as they were; likewise
      for the audit trail. */
  lemma {:induction false} AddCommentPerTicket(db: Db, ticketId: nat, content: string, userId: nat,
                                               now: Timestamp, other: nat)
    requires AddCommentStep(db, ticketId, content, userId, now).result.Ok?
    ensures var o := AddCommentStep(db, ticketId, content, userId, now);
      var c := o.result.value;
      var user := db.users[userId];
      var entry := NextAuditLog(db, ticketId, user, CommentObservation(user.name, ticketId, content), now);
      && CommentsByTicketId(o.db.comments, other)
           == CommentsByTicketId(db.comments, other) + (if other == ticketId then [c] else [])
      && GetAuditLogsForTicket(o.db, other)
           == GetAuditLogsForTicket(db, other) + (if other == ticketId then [entry] else [])
  {
    var o := AddCommentStep(db, ticketId, content, userId, now);
    var c := o.result.value;
    var user := db.users[userId];
    FilterAppend(db.comments, c, (x: Comment) => x.ticket.id == other);
    var saved := db.(comments := db.comments + [c], nextCommentId := db.nextCommentId + 1);
    SaveAuditLogForTicket(saved, ticketId, user, CommentObservation(user.name, ticketId, content), now, other);
  }

  lemma AddCommentPreservesValid(db: Db, ticketId: nat, content: string, userId: nat, now: Timestamp)
    requires ValidDb(db)
    ensures ValidDb(AddCommentStep(db, ticketId, content, userId, now).db)
  {
    var o := AddCommentStep(db, ticketId, content, userId, now);
    if o.result.Ok? {
      var user := db.users[userId];
      var saved := db.(comments := db.comments + [o.result.value], nextCommentId := db.nextCommentId + 1);
      assert ValidDb(saved);
      SaveAuditLogPreservesValid(saved, ticketId, user, CommentObservation(user.name, ticketId, content), now);
    }
  }

  /** The comment service over the shared store, posting its audit entries
      through the audit service of the same store. */
  class CommentService {
    const store: Store
    const auditLogService: AuditLogService

    constructor (store: Store, auditLogService: AuditLogService)
      requires auditLogService.store == store
      ensures this.store == store && this.auditLogService == auditLogService
    {
      this.store := store;
      this.auditLogService := auditLogService;
    }

    /** The comment is saved first and the audit entry written after it. */
    method AddComment(ticketId: nat, content: string, userId: nat, now: Timestamp) returns (r: Result<Comment>)
      requires auditLogService.store == store
      requires store.Valid()
      modifies store
      ensures Outcome(r, store.State()) == AddCommentStep(old(store.State()), ticketId, content, userId, now)
      ensures store.Valid()
    {
      AddCommentPreservesValid(store.State(), ticketId, content, userId, now);
      if userId !in store.users {
        return Err(PermissionDenied(UserNotFound));
      }
      var user := store.users[userId];
      if user.role.None? || user.role.value != ITSupport {
        return Err(PermissionDenied(OnlyITSupportComment));
      }
      var found := FindTicketById(store.tickets, ticketId);
      if found.None? {
        return Err(NotFound(TicketNotFound));
      }
      var comment := Comment(store.nextCommentId, content, found.value, user, now);
      ghost var before := store.State();
      store.comments := store.comments + [comment];
      store.nextCommentId := store.nextCommentId + 1;
      ghost var saved := store.State();
      assert saved == before.(comments := before.comments + [comment], nextCommentId := before.nextCommentId + 1);
      auditLogService.LogCommentAddition(ticketId, user, content, now);
      r := Ok(comment);
    }
  }
}
