/** The in-memory persistence layer: one table per entity, the derived
    queries of the repositories as order-preserving filters, the invariant
    the tables keep, and the store object the services update. */
module Repositories {
  import opened Model

  /** What a derived query `findBy…` returns: the stored rows that satisfy
      the condition, in stored order. */
  function Filter<T(==,!new)>(s: seq<T>, p: T -> bool): (r: seq<T>)
    ensures |r| <= |s|
    ensures forall x :: x in r <==> x in s && p(x)
  {
    if s == [] then []
    else
      assert s == [s[0]] + s[1..];
      (if p(s[0]) then [s[0]] else []) + Filter(s[1..], p)
  }

  /** A query keeps every matching row as often as it is stored and drops
      every other row. */
  lemma {:induction false} FilterMultiset<T(!new)>(s: seq<T>, p: T -> bool, x: T)
    ensures multiset(Filter(s, p))[x] == if p(x) then multiset(s)[x] else 0
    decreases |s|
  {
    if s != [] {
      assert s == [s[0]] + s[1..];
      FilterMultiset(s[1..], p, x);
    }
  }

  /** A row appended to a table shows up at the end of a query exactly when
      it satisfies the query's condition. */
  lemma {:induction false} FilterAppend<T(!new)>(s: seq<T>, x: T, p: T -> bool)
    ensures Filter(s + [x], p) == Filter(s, p) + (if p(x) then [x] else [])
    decreases |s|
  {
    var last := if p(x) then [x] else [];
    if s == [] {
      assert s + [x] == [x];
      assert [x][1..] == [];
    } else {
      var head := if p(s[0]) then [s[0]] else [];
      assert (s + [x])[0] == s[0];
      assert (s + [x])[1..] == s[1..] + [x];
      FilterAppend(s[1..], x, p);
      calc {
        Filter(s + [x], p);
        head + Filter(s[1..] + [x], p);
        head + (Filter(s[1..], p) + last);
        (head + Filter(s[1..], p)) + last;
        Filter(s, p) + last;
      }
    }
  }

  /** A query that no stored row satisfies returns nothing. */
  lemma {:induction false} FilterNone<T(!new)>(s: seq<T>, p: T -> bool)
    requires forall x | x in s :: !p(x)
    ensures Filter(s, p) == []
    decreases |s|
  {
    if s != [] {
      assert s[0] in s;
      FilterNone(s[1..], p);
    }
  }

  /** Rows whose ids are pairwise distinct, as a primary key guarantees. */
  ghost predicate DistinctIds(ts: seq<Ticket>)
  {
    forall i, j | 0 <= i < j < |ts| :: ts[i].id != ts[j].id
  }

  /** The ids present in the ticket table. */
  function TicketIds(ts: seq<Ticket>): set<nat>
  {
    set t | t in ts :: t.id
  }

  /** `findById` on the ticket table. */
  function FindTicketById(ts: seq<Ticket>, id: nat): (r: Option<Ticket>)
    ensures r.Some? <==> id in TicketIds(ts)
    ensures r.Some? ==> r.value in ts && r.value.id == id
  {
    var found := Filter(ts, (t: Ticket) => t.id == id);
    if found == [] then None
    else
      assert found[0] in found;
      Some(found[0])
  }

  /** With distinct ids, `findById` returns the unique row with that id. */
  lemma FindTicketByIdAt(ts: seq<Ticket>, i: nat)
    requires DistinctIds(ts) && i < |ts|
    ensures FindTicketById(ts, ts[i].id) == Some(ts[i])
  {
    assert ts[i] in ts;
    var r := FindTicketById(ts, ts[i].id);
    var j :| 0 <= j < |ts| && ts[j] == r.value;
    assert ts[j].id == ts[i].id;
  }

  /** `save` of a ticket that is already stored: the row with its id is
      replaced in place. */
  function ReplaceTicket(ts: seq<Ticket>, t: Ticket): seq<Ticket>
  {
    seq(|ts|, i requires 0 <= i < |ts| => if ts[i].id == t.id then t else ts[i])
  }

  /** Replacing a row by one with the same id keeps the set of ids. */
  lemma ReplaceTicketKeepsIds(ts: seq<Ticket>, t: Ticket)
    requires t.id in TicketIds(ts)
    ensures TicketIds(ReplaceTicket(ts, t)) == TicketIds(ts)
  {
    var r := ReplaceTicket(ts, t);
    forall id | id in TicketIds(ts) ensures id in TicketIds(r) {
      var u :| u in ts && u.id == id;
      var i :| 0 <= i < |ts| && ts[i] == u;
      assert r[i] in r;
    }
    forall id | id in TicketIds(r) ensures id in TicketIds(ts) {
      var u :| u in r && u.id == id;
      var i :| 0 <= i < |r| && r[i] == u;
      assert ts[i] in ts;
    }
  }

  /** Appending a ticket adds its id and keeps the others. */
  lemma TicketIdsAppend(ts: seq<Ticket>, t: Ticket)
    ensures TicketIds(ts + [t]) == TicketIds(ts) + {t.id}
  {
    assert forall u :: u in ts + [t] <==> u in ts || u == t;
  }

  /** `findByCreatedById` */
  function TicketsByCreatedById(ts: seq<Ticket>, userId: nat): seq<Ticket>
  {
    Filter(ts, (t: Ticket) => t.createdBy.id == userId)
  }

  /** `findByIdAndStatus` */
  function TicketsByIdAndStatus(ts: seq<Ticket>, id: nat, status: Status): seq<Ticket>
  {
    Filter(ts, (t: Ticket) => t.id == id && t.status == status)
  }

  /** `findByStatus` */
  function TicketsByStatus(ts: seq<Ticket>, status: Status): seq<Ticket>
  {
    Filter(ts, (t: Ticket) => t.status == status)
  }

  /** `findByTicketId` on the audit table. */
  function AuditLogsByTicketId(logs: seq<AuditLog>, ticketId: nat): seq<AuditLog>
  {
    Filter(logs, (e: AuditLog) => e.ticketId == ticketId)
  }

  /** The comments of a ticket: the comment rows whose ticket has that id. */
  function CommentsByTicketId(cs: seq<Comment>, ticketId: nat): seq<Comment>
  {
    Filter(cs, (c: Comment) => c.ticket.id == ticketId)
  }

  /** With distinct ids, `findByIdAndStatus` returns at most one row. */
  lemma {:induction false} TicketsByIdAndStatusAtMostOne(ts: seq<Ticket>, id: nat, status: Status)
    requires DistinctIds(ts)
    ensures |TicketsByIdAndStatus(ts, id, status)| <= 1
    decreases |ts|
  {
    if ts != [] {
      var rest := ts[1..];
      assert DistinctIds(rest) by {
        forall i, j | 0 <= i < j < |rest| ensures rest[i].id != rest[j].id {
          assert rest[i] == ts[i + 1] && rest[j] == ts[j + 1];
        }
      }
      if ts[0].id == id && ts[0].status == status {
        var tail := TicketsByIdAndStatus(rest, id, status);
        forall u | u in rest ensures u.id != id {
          var k :| 0 <= k < |rest| && rest[k] == u;
          assert ts[k + 1] == u;
        }
        assert |tail| > 0 ==> tail[0] in tail;
      } else {
        TicketsByIdAndStatusAtMostOne(rest, id, status);
      }
    }
  }

  /** The contents of all tables at one moment, with the next id each
      table hands out. */
  datatype Db = Db(
    users: map<nat, User>,
    tickets: seq<Ticket>,
    comments: seq<Comment>,
    auditLogs: seq<AuditLog>,
    nextTicketId: nat,
    nextCommentId: nat,
    nextAuditLogId: nat)

  /** What a state-changing service call returns, with the tables after it. */
  datatype Outcome<+T> = Outcome(result: Result<T>, db: Db)

  /** Tables with the given users and nothing else; identity columns start
      at 1. */
  function EmptyDb(users: map<nat, User>): Db
  {
    Db(users, [], [], [], 1, 1, 1)
  }

  /** The invariant the tables keep under every `TicketService` and
      `CommentService` operation (a direct audit call keeps it only for an
      entry by IT support about a stored ticket):
      - each user is stored under its own id;
      - ticket ids are distinct and below the next ticket id, and likewise
        for comments and audit entries;
      - every ticket was created by an employee;
      - every comment was written by IT support on a stored ticket;
      - every audit entry was written by IT support about a stored ticket. */
  ghost predicate ValidDb(db: Db)
  {
    && (forall k | k in db.users :: db.users[k].id == k)
    && DistinctIds(db.tickets)
    && (forall i | 0 <= i < |db.tickets| :: db.tickets[i].id < db.nextTicketId)
    && (forall i, j | 0 <= i < j < |db.comments| :: db.comments[i].id != db.comments[j].id)
    && (forall i | 0 <= i < |db.comments| :: db.comments[i].id < db.nextCommentId)
    && (forall i, j | 0 <= i < j < |db.auditLogs| :: db.auditLogs[i].id != db.auditLogs[j].id)
    && (forall i | 0 <= i < |db.auditLogs| :: db.auditLogs[i].id < db.nextAuditLogId)
    && (forall i | 0 <= i < |db.tickets| :: db.tickets[i].createdBy.role == Some(Employee))
    && (forall i | 0 <= i < |db.comments| ::
          db.comments[i].createdBy.role == Some(ITSupport) && db.comments[i].ticket.id in TicketIds(db.tickets))
    && (forall i | 0 <= i < |db.auditLogs| ::
          db.auditLogs[i].changedBy.role == Some(ITSupport) && db.auditLogs[i].ticketId in TicketIds(db.tickets))
  }

  lemma EmptyDbValid(users: map<nat, User>)
    requires forall k | k in users :: users[k].id == k
    ensures ValidDb(EmptyDb(users))
  {
  }

  /** The database: one field per table, updated in place by the services. */
  class Store {
    var users: map<nat, User>
    var tickets: seq<Ticket>
    var comments: seq<Comment>
    var auditLogs: seq<AuditLog>
    var nextTicketId: nat
    var nextCommentId: nat
    var nextAuditLogId: nat

    function State(): Db
      reads this
    {
      Db(users, tickets, comments, auditLogs, nextTicketId, nextCommentId, nextAuditLogId)
    }

    ghost predicate Valid()
      reads this
    {
      ValidDb(State())
    }

    constructor (users: map<nat, User>)
      requires forall k | k in users :: users[k].id == k
      ensures State() == EmptyDb(users)
      ensures Valid()
    {
      this.users := users;
      tickets, comments, auditLogs := [], [], [];
      nextTicketId, nextCommentId, nextAuditLogId := 1, 1, 1;
      new;
      EmptyDbValid(users);
    }
  }
}
