/** The audit tables: entries and stored bodies, how they refer to each other, and the
    retention prune of app/services/email_drainer.py. */
module Audit {
  import opened Basics
  import opened Outbox
  import L = RowLife

  predicate HasBody(bodies: seq<Body>, id: LogId) { exists b | b in bodies :: b.logId == id }

  predicate LogIdsIncrease(logs: seq<Log>) { forall i, j | 0 <= i < j < |logs| :: logs[i].id < logs[j].id }

  predicate OneBodyEach(bodies: seq<Body>) { forall i, j | 0 <= i < j < |bodies| :: bodies[i].logId != bodies[j].logId }

  /** Log ids are fresh, each body belongs to a present log, and no log has two bodies. */
  ghost predicate Sound(db: Db) {
    && LogIdsIncrease(db.logs)
    && (forall log | log in db.logs :: log.id < db.nextLog)
    && EachHasLog(db.bodies, db.logs) && OneBodyEach(db.bodies)
  }

  /** The audit trail of one outbox row, oldest first. */
  function NotesIn(logs: seq<Log>, bodies: seq<Body>, id: RowId): seq<L.Note> {
    if logs == [] then []
    else
      var log := logs[|logs| - 1];
      NotesIn(logs[..|logs| - 1], bodies, id) +
      if log.source == Some(id) then [L.Note(log.status, HasBody(bodies, log.id))] else []
  }

  function Trail(db: Db, id: RowId): seq<L.Note> { NotesIn(db.logs, db.bodies, id) }

  lemma {:induction false} LaterBodyUnseen(logs: seq<Log>, bodies: seq<Body>, b: Body, id: RowId)
    requires forall log | log in logs :: log.id != b.logId
    ensures NotesIn(logs, bodies + [b], id) == NotesIn(logs, bodies, id)
  {
    if logs != [] {
      var past, log := logs[..|logs| - 1], logs[|logs| - 1];
      assert forall l | l in past :: l in logs;
      assert log in logs;
      LaterBodyUnseen(past, bodies, b, id);
      assert HasBody(bodies + [b], log.id) == HasBody(bodies, log.id) by {
        assert forall x | x in bodies :: x in bodies + [b];
      }
    }
  }

  lemma AppendKeepsSound(db: Db, row: Row, id: RowId, e: Entry, at: Time)
    requires Sound(db)
    ensures Sound(AppendLog(db, row, id, e, at))
  {
    var db' := AppendLog(db, row, id, e, at);
    LogsStaySound(db.logs, db'.logs[|db.logs|], db.nextLog);
    if e.body.Some? {
      BodiesStaySound(db'.logs, db.bodies, Body(db.nextLog, e.body.value, at), db'.logs[|db.logs|]);
    }
  }

  predicate EachHasLog(bodies: seq<Body>, logs: seq<Log>) {
    forall b | b in bodies :: exists log | log in logs :: log.id == b.logId
  }

  /** A log with the next id keeps the ids increasing, below the id after it, and every body with
      a log of its own, none of them the new one. */
  lemma LogsStaySound(logs: seq<Log>, log: Log, next: LogId)
    requires LogIdsIncrease(logs) && log.id == next && forall l | l in logs :: l.id < next
    ensures LogIdsIncrease(logs + [log]) && forall l | l in logs + [log] :: l.id < next + 1
    ensures forall bodies: seq<Body> | EachHasLog(bodies, logs) ::
              EachHasLog(bodies, logs + [log]) && forall b | b in bodies :: b.logId != next
  {
    forall bodies: seq<Body>, b | EachHasLog(bodies, logs) && b in bodies
      ensures b.logId != next && exists l | l in logs + [log] :: l.id == b.logId
    {
      var l :| l in logs && l.id == b.logId;
      assert l in logs + [log];
    }
  }

  lemma BodiesStaySound(logs: seq<Log>, bodies: seq<Body>, b: Body, log: Log)
    requires EachHasLog(bodies, logs) && log in logs && log.id == b.logId
    requires OneBodyEach(bodies) && forall other | other in bodies :: other.logId != b.logId
    ensures EachHasLog(bodies + [b], logs) && OneBodyEach(bodies + [b])
  {
  }

  /** A new entry extends the trail of its own row and no other. */
  lemma AppendExtendsTrail(db: Db, row: Row, source: RowId, e: Entry, at: Time, id: RowId)
    requires Sound(db)
    ensures Trail(AppendLog(db, row, source, e, at), id) ==
            Trail(db, id) + if id == source then [L.Note(e.status, e.body.Some?)] else []
  {
    var db' := AppendLog(db, row, source, e, at);
    assert db'.logs[..|db.logs|] == db.logs;
    if e.body.Some? {
      var b := Body(db.nextLog, e.body.value, at);
      LaterBodyUnseen(db.logs, db.bodies, b, id);
      assert b in db'.bodies;
    } else {
      forall b | b in db.bodies
        ensures b.logId != db.nextLog
      {
        var log :| log in db.logs && log.id == b.logId;
      }
    }
  }

  /** An entry about no outbox row leaves every trail alone. */
  lemma OtherLogKeeps(db: Db, log: Log, id: RowId)
    requires Sound(db) && log.id == db.nextLog && log.source.None?
    ensures var db' := db.(logs := db.logs + [log], nextLog := db.nextLog + 1);
            Sound(db') && Trail(db', id) == Trail(db, id)
  {
    var db' := db.(logs := db.logs + [log], nextLog := db.nextLog + 1);
    assert db'.logs[..|db.logs|] == db.logs;
    assert forall l | l in db.logs :: l in db'.logs;
  }

  // ------------------------------------------------------------------- retention

  function Keep<T>(items: seq<T>, p: T -> bool): (kept: seq<T>)
    ensures |kept| <= |items|
  {
    if items == [] then []
    else Keep(items[..|items| - 1], p) + if p(items[|items| - 1]) then [items[|items| - 1]] else []
  }

  lemma {:induction false} KeepMembers<T>(items: seq<T>, p: T -> bool, x: T)
    ensures x in Keep(items, p) <==> x in items && p(x)
  {
    if items != [] {
      assert items == items[..|items| - 1] + [items[|items| - 1]];
      KeepMembers(items[..|items| - 1], p, x);
    }
  }

  datatype PruneSummary = PruneSummary(bodies: nat, logs: nat)

  function BodySince(cutoff: Time): Body -> bool { (b: Body) => b.createdAt >= cutoff }

  function BodyOutside(doomed: set<LogId>): Body -> bool { (b: Body) => b.logId !in doomed }

  function LogSince(cutoff: Time): Log -> bool { (log: Log) => log.createdAt >= cutoff }

  /** Bodies past their own cutoff go first, then bodies of logs past theirs, then those logs. */
  function YoungBodies(db: Db, bodyCutoff: Time): seq<Body> {
    Keep(db.bodies, BodySince(bodyCutoff))
  }

  function DoomedLogs(logs: seq<Log>, logCutoff: Time): set<LogId> {
    set log | log in logs && log.createdAt < logCutoff :: log.id
  }

  function LastingBodies(db: Db, bodyCutoff: Time, logCutoff: Time): seq<Body> {
    Keep(YoungBodies(db, bodyCutoff), BodyOutside(DoomedLogs(db.logs, logCutoff)))
  }

  function LastingLogs(db: Db, logCutoff: Time): seq<Log> {
    Keep(db.logs, LogSince(logCutoff))
  }

  /** prune_email_audit, given its two cutoffs. */
  function PruneAudit(db: Db, bodyCutoff: Time, logCutoff: Time): (Db, PruneSummary) {
    var bodies := LastingBodies(db, bodyCutoff, logCutoff);
    var logs := LastingLogs(db, logCutoff);
    var first := |db.bodies| - |YoungBodies(db, bodyCutoff)|;
    var second := |YoungBodies(db, bodyCutoff)| - |bodies|;
    (db.(bodies := bodies, logs := logs), PruneSummary(first + second, |db.logs| - |logs|))
  }

  lemma {:induction false} KeepIncreases(logs: seq<Log>, p: Log -> bool)
    requires LogIdsIncrease(logs)
    ensures LogIdsIncrease(Keep(logs, p))
  {
    if logs != [] {
      var past := logs[..|logs| - 1];
      KeepIncreases(past, p);
      forall log | log in Keep(past, p)
        ensures log.id < logs[|logs| - 1].id
      {
        KeepMembers(past, p, log);
        var i :| 0 <= i < |past| && past[i] == log;
      }
    }
  }

  lemma {:induction false} KeepOneEach(bodies: seq<Body>, p: Body -> bool)
    requires OneBodyEach(bodies)
    ensures OneBodyEach(Keep(bodies, p))
  {
    if bodies != [] {
      var past := bodies[..|bodies| - 1];
      KeepOneEach(past, p);
      forall b | b in Keep(past, p)
        ensures b.logId != bodies[|bodies| - 1].logId
      {
        KeepMembers(past, p, b);
        var i :| 0 <= i < |past| && past[i] == b;
      }
    }
  }

  lemma SameIdSameLog(logs: seq<Log>, a: Log, b: Log)
    requires LogIdsIncrease(logs) && a in logs && b in logs && a.id == b.id
    ensures a == b
  {
    var i :| 0 <= i < |logs| && logs[i] == a;
    var j :| 0 <= j < |logs| && logs[j] == b;
  }

  /** The prune deletes exactly the logs past their cutoff, and exactly the bodies that are past
      theirs or whose log goes. Without any cascade every surviving body still has its log, and
      the reported count is the number of bodies removed, none counted twice. */
  lemma PruneKeepsIntegrity(db: Db, bodyCutoff: Time, logCutoff: Time)
    requires Sound(db)
    ensures var (db', summary) := PruneAudit(db, bodyCutoff, logCutoff);
            && Sound(db')
            && (forall log :: log in db'.logs <==> log in db.logs && log.createdAt >= logCutoff)
            && (forall b :: b in db'.bodies <==>
                  b in db.bodies && b.createdAt >= bodyCutoff &&
                  exists log | log in db.logs :: log.id == b.logId && log.createdAt >= logCutoff)
            && summary.bodies == |db.bodies| - |db'.bodies|
            && summary.logs == |db.logs| - |db'.logs|
  {
    var db' := PruneAudit(db, bodyCutoff, logCutoff).0;
    KeepIncreases(db.logs, LogSince(logCutoff));
    KeepOneEach(db.bodies, BodySince(bodyCutoff));
    var doomed := DoomedLogs(db.logs, logCutoff);
    KeepOneEach(YoungBodies(db, bodyCutoff), BodyOutside(doomed));
    forall log
      ensures log in db'.logs <==> log in db.logs && log.createdAt >= logCutoff
    {
      KeepMembers(db.logs, LogSince(logCutoff), log);
    }
    forall b
      ensures b in db'.bodies <==> b in db.bodies && b.createdAt >= bodyCutoff && b.logId !in doomed
    {
      KeepMembers(db.bodies, BodySince(bodyCutoff), b);
      KeepMembers(YoungBodies(db, bodyCutoff), BodyOutside(doomed), b);
    }
    forall b | b in db.bodies
      ensures b.logId !in doomed <==> exists log | log in db.logs :: log.id == b.logId && log.createdAt >= logCutoff
    {
      var log :| log in db.logs && log.id == b.logId;
      forall other | other in db.logs && other.id == b.logId
        ensures other == log
      {
        SameIdSameLog(db.logs, log, other);
      }
      if log.createdAt < logCutoff { assert b.logId in doomed; }
    }
  }
}
