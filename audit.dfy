/** The audit trail: the observation texts for status changes and comment
    additions, appending an entry, and the per-ticket query. */
module Audit {
  import opened Model
  import opened Text
  import opened Repositories

  /** The text recorded when IT support changes a ticket's status. */
  function StatusChangeObservation(name: string, ticketId: nat, oldStatus: Status, newStatus: Status): string
  {
    "IT Support " + name + " changed the status of Ticket " + NatText(ticketId)
      + " from " + StatusName(oldStatus) + " to " + StatusName(newStatus) + "."
  }

  /** The text recorded when IT support comments on a ticket. */
  function CommentObservation(name: string, ticketId: nat, comment: string): string
  {
    "IT Support " + name + " added a comment on Ticket " + NatText(ticketId) + ": " + comment + "."
  }

  /** For a given actor and ticket, the status-change text records the
      transition unambiguously: it determines both the old and the new
      status. */
  lemma StatusChangeObservationDetermines(name: string, ticketId: nat,
                                          old1: Status, new1: Status, old2: Status, new2: Status)
    requires StatusChangeObservation(name, ticketId, old1, new1) == StatusChangeObservation(name, ticketId, old2, new2)
    ensures old1 == old2 && new1 == new2
  {
    var lead := "IT Support " + name + " changed the status of Ticket " + NatText(ticketId) + " from ";
    var text1 := StatusChangeObservation(name, ticketId, old1, new1);
    var text2 := StatusChangeObservation(name, ticketId, old2, new2);
    assert text1[|lead|] == StatusName(old1)[0];
    assert text2[|lead|] == StatusName(old2)[0];
    StatusNameHeadDetermines(old1, old2);
    var k := |lead| + |StatusName(old1)| + |" to "|;
    assert text1[k] == StatusName(new1)[0];
    assert text2[k] == StatusName(new2)[0];
    StatusNameHeadDetermines(new1, new2);
  }

  /** For a given actor and ticket, the comment text determines the comment. */
  lemma CommentObservationDetermines(name: string, ticketId: nat, comment1: string, comment2: string)
    requires CommentObservation(name, ticketId, comment1) == CommentObservation(name, ticketId, comment2)
    ensures comment1 == comment2
  {
    var lead := "IT Support " + name + " added a comment on Ticket " + NatText(ticketId) + ": ";
    var text1 := CommentObservation(name, ticketId, comment1);
    var text2 := CommentObservation(name, ticketId, comment2);
    assert |comment1| == |text1| - |lead| - 1 == |comment2|;
    forall i | 0 <= i < |comment1| ensures comment1[i] == comment2[i] {
      assert text1[|lead| + i] == comment1[i];
      assert text2[|lead| + i] == comment2[i];
    }
  }

  /** The entry `saveAuditLog` would write next. */
  function NextAuditLog(db: Db, ticketId: nat, changedBy: User, observation: string, now: Timestamp): AuditLog
  {
    AuditLog(db.nextAuditLogId, ticketId, changedBy, now, observation)
  }

  /** `saveAuditLog`: a new entry is appended to the audit table. */
  function SaveAuditLogStep(db: Db, ticketId: nat, changedBy: User, observation: string, now: Timestamp): Db
  {
    db.(auditLogs := db.auditLogs + [NextAuditLog(db, ticketId, changedBy, observation, now)],
        nextAuditLogId := db.nextAuditLogId + 1)
  }

  /** `logStatusChange` */
  function LogStatusChangeStep(db: Db, ticketId: nat, changedBy: User,
                               oldStatus: Status, newStatus: Status, now: Timestamp): Db
  {
    SaveAuditLogStep(db, ticketId, changedBy, StatusChangeObservation(changedBy.name, ticketId, oldStatus, newStatus), now)
  }

  /** `logCommentAddition` */
  function LogCommentAdditionStep(db: Db, ticketId: nat, changedBy: User, comment: string, now: Timestamp): Db
  {
    SaveAuditLogStep(db, ticketId, changedBy, CommentObservation(changedBy.name, ticketId, comment), now)
  }

  /** `getAuditLogsForTicket`: the stored entries about one ticket. */
  function GetAuditLogsForTicket(db: Db, ticketId: nat): (r: seq<AuditLog>)
    ensures forall e :: e in r <==> e in db.auditLogs && e.ticketId == ticketId
    ensures |r| <= |db.auditLogs|
  {
    AuditLogsByTicketId(db.auditLogs, ticketId)
  }

  /** Saving appends exactly one entry carrying the arguments, keeps every
      earlier entry, and touches no other table. */
  lemma SaveAuditLogAppendsOne(db: Db, ticketId: nat, changedBy: User, observation: string, now: Timestamp)
    ensures var d := SaveAuditLogStep(db, ticketId, changedBy, observation, now);
      && |d.auditLogs| == |db.auditLogs| + 1
      && d.auditLogs[..|db.auditLogs|] == db.auditLogs
      && d.auditLogs[|db.auditLogs|].ticketId == ticketId
      && d.auditLogs[|db.auditLogs|].changedBy == changedBy
      && d.auditLogs[|db.auditLogs|].observation == observation
      && d.users == db.users && d.tickets == db.tickets && d.comments == db.comments
  {
  }

  /** The log is append-only per ticket: saving an entry for one ticket
      adds it at the end of that ticket's entries and leaves the entries of
      every other ticket as they were. */
  lemma {:induction false} SaveAuditLogForTicket(db: Db, ticketId: nat, changedBy: User, observation: string,
                                                 now: Timestamp, other: nat)
    ensures var d := SaveAuditLogStep(db, ticketId, changedBy, observation, now);
      GetAuditLogsForTicket(d, other)
        == GetAuditLogsForTicket(db, other)
           + (if other == ticketId then [NextAuditLog(db, ticketId, changedBy, observation, now)] else [])
  {
    FilterAppend(db.auditLogs, NextAuditLog(db, ticketId, changedBy, observation, now),
                 (e: AuditLog) => e.ticketId == other);
  }

  /** An entry by IT support about a stored ticket keeps the tables valid. */
  lemma SaveAuditLogPreservesValid(db: Db, ticketId: nat, changedBy: User, observation: string, now: Timestamp)
    requires ValidDb(db)
    requires changedBy.role == Some(ITSupport) && ticketId in TicketIds(db.tickets)
    ensures ValidDb(SaveAuditLogStep(db, ticketId, changedBy, observation, now))
  {
  }

  /** The audit service over the shared store. Its methods are public and
      accept any user and any ticket id; an entry keeps the store valid when
      it is written by IT support about a stored ticket, which is what
      `TicketService` and `CommentService` pass. */
  class AuditLogService {
    const store: Store

    constructor (store: Store)
      ensures this.store == store
    {
      this.store := store;
    }

    method LogStatusChange(ticketId: nat, changedBy: User, oldStatus: Status, newStatus: Status, now: Timestamp)
      modifies store
      ensures store.State() == LogStatusChangeStep(old(store.State()), ticketId, changedBy, oldStatus, newStatus, now)
      ensures old(store.Valid()) && changedBy.role == Some(ITSupport) && ticketId in TicketIds(old(store.tickets)) ==>
                store.Valid()
    {
      var observation := StatusChangeObservation(changedBy.name, ticketId, oldStatus, newStatus);
      SaveAuditLog(ticketId, changedBy, observation, now);
    }

    method LogCommentAddition(ticketId: nat, changedBy: User, comment: string, now: Timestamp)
      modifies store
      ensures store.State() == LogCommentAdditionStep(old(store.State()), ticketId, changedBy, comment, now)
      ensures old(store.Valid()) && changedBy.role == Some(ITSupport) && ticketId in TicketIds(old(store.tickets)) ==>
                store.Valid()
    {
      var observation := CommentObservation(changedBy.name, ticketId, comment);
      SaveAuditLog(ticketId, changedBy, observation, now);
    }

    method SaveAuditLog(ticketId: nat, changedBy: User, observation: string, now: Timestamp)
      modifies store
      ensures store.State() == SaveAuditLogStep(old(store.State()), ticketId, changedBy, observation, now)
      ensures old(store.Valid()) && changedBy.role == Some(ITSupport) && ticketId in TicketIds(old(store.tickets)) ==>
                store.Valid()
    {
      if store.Valid() && changedBy.role == Some(ITSupport) && ticketId in TicketIds(store.tickets) {
        SaveAuditLogPreservesValid(store.State(), ticketId, changedBy, observation, now);
      }
      var entry := AuditLog(store.nextAuditLogId, ticketId, changedBy, now, observation);
      store.auditLogs := store.auditLogs + [entry];
      store.nextAuditLogId := store.nextAuditLogId + 1;
    }
  }
}
