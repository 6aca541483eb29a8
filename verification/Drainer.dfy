/** The drainer and the enqueue side as the source has them: methods that update the tables in
    place, row by row, each proved against the functions of modules Outbox and DrainRun. */
module Drainer {
  import opened Basics
  import opened Templates
  import opened Outbox
  import opened DrainRun
  import opened Windows
  import Audit
  import Slack

  class Tables {
    const cfg: Config
    const slack: Slack.SlackConfig
    var rows: map<RowId, Row>
    var nextRow: RowId
    var logs: seq<Log>
    var nextLog: LogId
    var bodies: seq<Body>

    ghost function Contents(): Db
      reads this
    {
      Db(rows, nextRow, logs, nextLog, bodies)
    }

    constructor (cfg: Config, slack: Slack.SlackConfig)
      ensures Contents() == EMPTY && this.cfg == cfg && this.slack == slack
    {
      this.cfg, this.slack := cfg, slack;
      rows, nextRow, logs, nextLog, bodies := map[], 0, [], 0, [];
    }

    // ------------------------------------------------------------------- enqueueing

    method EnqueueEmail(q: Request, c: Catalog, now: Time) returns (outcome: EnqueueOutcome)
      modifies this`rows, this`nextRow
      ensures outcome == EnqueueVerdict(old(rows), q, c, now)
      ensures Contents() == Enqueue(old(Contents()), q, c, now)
    {
      var dispatchAt := if q.dispatchAt.Some? then q.dispatchAt.value else now;
      var effective := Resolve(c, q.event);
      if effective.None? || !effective.value.active {
        return BlockedInactive;
      }
      if effective.value.windowEnd.Some? && now > effective.value.windowEnd.value {
        return BlockedWindow;
      }
      var deferred := false;
      if effective.value.windowStart.Some? && dispatchAt < effective.value.windowStart.value {
        dispatchAt := effective.value.windowStart.value;
        deferred := true;
      }
      if q.dedupKey.Some? && HoldsKey(rows, q.dedupKey.value) {
        return Duplicate;
      }
      rows := rows[nextRow := Row(q.templateKey, q.recipient, q.workItem, q.event, q.department, q.dedupKey,
                                  dispatchAt, Queued, None, None, 0, None, None, None, None, now)];
      nextRow := nextRow + 1;
      outcome := if deferred then Deferred else Created;
    }

    // -------------------------------------------------------- processing one row

    /** write_notification_log */
    method WriteLog(id: RowId, status: LogStatus, error: Option<Reason>, at: Time) returns (logId: LogId)
      requires id in rows
      modifies this`logs, this`nextLog
      ensures logId == old(nextLog)
      ensures Contents() == AppendLog(old(Contents()), rows[id], id, Entry(status, error, None), at)
    {
      var row := rows[id];
      logId := nextLog;
      logs := logs + [Log(logId, Email, row.templateKey, row.recipient, row.workItem, status, error, at, Some(id))];
      nextLog := nextLog + 1;
    }

    method ApplyTerminalState(id: RowId, status: Status, reason: Option<Reason>, content: Option<Rendered>, at: Time)
      requires id in rows && status.Terminal()
      modifies this
      ensures Contents() == RecordEffect(old(Contents()), id, EndWith(old(rows[id]), status, reason, content), at)
    {
      rows := rows[id := rows[id].(status := status, lastError := reason)];
      if status in {Cancelled, Failed} {
        rows := rows[id := rows[id].(dedupKey := None)];
      }
      var logId := WriteLog(id, LogStatusOf(status), reason, at);
      if content.Some? {
        bodies := bodies + [Body(logId, content.value, at)];
      }
      assert rows == old(rows)[id := Ended(old(rows[id]), status, reason)];
    }

    method BlockOnRender(id: RowId, reason: Reason, now: Time) returns (status: Status)
      requires id in rows
      modifies this
      ensures Contents() == RecordEffect(old(Contents()), id, Blocked(cfg, old(rows[id]), reason, now), now)
      ensures Returned(status) == Blocked(cfg, old(rows[id]), reason, now).outcome
    {
      var row := rows[id];
      if row.blockedSince.Some? && now - row.blockedSince.value >= cfg.renderMaxAge {
        ApplyTerminalState(id, Failed, Some(reason), None, now);
        return Failed;
      }
      var firstBlock := row.blockedSince.None?;
      row := row.(status := RenderBlocked, lastError := Some(reason), dispatchAt := now + cfg.renderRetry,
                  claimedAt := None, claimedBy := None);
      if firstBlock {
        row := row.(blockedSince := Some(now));
      }
      rows := rows[id := row];
      if firstBlock {
        var _ := WriteLog(id, LogRenderBlocked, Some(reason), now);
      }
      status := RenderBlocked;
    }

    method RequeueOrFail(id: RowId, reason: Reason, content: Rendered, now: Time) returns (status: Status)
      requires id in rows
      modifies this
      ensures Contents() == RecordEffect(old(Contents()), id, Retried(cfg, old(rows[id]), reason, content, now), now)
      ensures Returned(status) == Retried(cfg, old(rows[id]), reason, content, now).outcome
      ensures status == Queued ==> rows[id].attempts < cfg.maxAttempts
    {
      rows := rows[id := rows[id].(attempts := rows[id].attempts + 1)];
      if rows[id].attempts >= cfg.maxAttempts {
        ApplyTerminalState(id, Failed, Some(reason), Some(content), now);
        assert rows == old(rows)[id := rows[id]];
        return Failed;
      }
      rows := rows[id := rows[id].(status := Queued, lastError := Some(reason),
                                   dispatchAt := now + Backoff(rows[id].attempts),
                                   claimedAt := None, claimedBy := None)];
      assert rows == old(rows)[id := rows[id]];
      status := Queued;
    }

    method HandleTransportFailure(id: RowId, x: Inputs) returns (outcome: Outcome)
      requires id in rows && Renders(rows[id], x) && x.ses.Rejected?
      modifies this
      ensures Contents() == RecordEffect(old(Contents()), id, Refused(cfg, old(rows[id]), x), x.doneAt)
      ensures outcome == Refused(cfg, old(rows[id]), x).outcome
    {
      var reason := SesError(x.ses.error, x.ses.code);
      var kind := Classify(x.ses.code);
      if kind == AccountHalt {
        rows := rows[id := rows[id].(status := Queued, lastError := Some(reason), claimedAt := None,
                                     claimedBy := None)];
        return RaisedHalt(reason);
      }
      if kind == Permanent {
        ApplyTerminalState(id, Failed, Some(reason), Some(x.render.content), x.doneAt);
        return Returned(Failed);
      }
      var status := RequeueOrFail(id, reason, x.render.content, x.doneAt);
      if kind == TransientAccount {
        return RaisedThrottle(status, reason);
      }
      outcome := Returned(status);
    }

    method ProcessRow(id: RowId, x: Inputs) returns (outcome: Outcome)
      requires id in rows
      modifies this
      ensures Contents() == Outbox.ProcessRow(cfg, old(Contents()), id, x)
      ensures outcome == Process(cfg, old(rows[id]), x).outcome
      ensures rows == old(rows)[id := Process(cfg, old(rows[id]), x).row]
    {
      var row := rows[id];
      var missing := Missing(row, x);
      if missing.Some? {
        ApplyTerminalState(id, Cancelled, Some(EntityGone(missing.value)), None, x.doneAt);
        return Returned(Cancelled);
      }
      var effective := Resolve(x.catalog, row.event);
      if effective.None? || !effective.value.active {
        ApplyTerminalState(id, Cancelled, Some(TemplateSilent), None, x.doneAt);
        return Returned(Cancelled);
      }
      if effective.value.windowEnd.Some? && x.checkedAt > effective.value.windowEnd.value {
        ApplyTerminalState(id, Cancelled, Some(WindowClosed(effective.value.windowEnd.value)), None, x.doneAt);
        return Returned(Cancelled);
      }
      if x.render.RenderBroken? {
        var status := BlockOnRender(id, RenderProblem(x.render.detail), x.doneAt);
        return Returned(status);
      }
      outcome := SendRendered(id, x);
    }

    /** The rest of process_row, once the template has rendered. */
    method SendRendered(id: RowId, x: Inputs) returns (outcome: Outcome)
      requires id in rows && Renders(rows[id], x)
      modifies this
      ensures Contents() == Outbox.ProcessRow(cfg, old(Contents()), id, x)
      ensures outcome == Process(cfg, old(rows[id]), x).outcome
    {
      if rows[id].blockedSince.Some? {
        rows := rows[id := rows[id].(blockedSince := None)];
      }
      ghost var clean := old(rows[id]).(blockedSince := None);
      assert rows == old(rows)[id := clean];
      var content := Some(x.render.content);
      if x.suppressed || !x.emailEnabled {
        var reason := if x.suppressed then RecipientSuppressed else EmailDisabled;
        ApplyTerminalState(id, Suppressed, Some(reason), content, x.doneAt);
        Overwritten(old(Contents()), id, clean, EndWith(clean, Suppressed, Some(reason), content), x.doneAt);
        return Returned(Suppressed);
      }
      if x.ses.Accepted? {
        rows := rows[id := rows[id].(sentAt := Some(x.doneAt), messageId := Some(x.ses.messageId))];
        ghost var sent := rows[id];
        assert rows == old(rows)[id := sent];
        ApplyTerminalState(id, Sent, None, content, x.doneAt);
        Overwritten(old(Contents()), id, sent, EndWith(sent, Sent, None, content), x.doneAt);
        return Returned(Sent);
      }
      outcome := HandleTransportFailure(id, x);
      Overwritten(old(Contents()), id, clean, Refused(cfg, clean, x), x.doneAt);
    }

    // ---------------------------------------------------------- claims and releases

    method ReapStaleClaims(now: Time) returns (reaped: nat)
      modifies this`rows
      ensures Contents() == Reap(old(Contents()), now)
      ensures reaped == |set id | id in old(rows) && Stale(old(rows)[id], now)|
    {
      var stale := set id | id in rows && Stale(rows[id], now);
      reaped := |stale|;
      while stale != {}
        invariant rows.Keys == old(rows).Keys
        invariant forall id | id in stale :: id in rows && Stale(old(rows)[id], now)
        invariant forall id | id in rows ::
                    rows[id] == if Stale(old(rows)[id], now) && id !in stale then Reaped(old(rows)[id])
                                else old(rows)[id]
        decreases stale
      {
        var id :| id in stale;
        var row := rows[id];
        if row.blockedSince.Some? {
          row := row.(status := RenderBlocked);
        } else {
          row := row.(status := Queued, attempts := row.attempts + 1);
        }
        rows := rows[id := row.(claimedAt := None, claimedBy := None)];
        stale := stale - {id};
      }
    }

    /** The row of the pool that ORDER BY dispatch_at, id puts first. */
    method FirstOf(pool: set<RowId>) returns (first: RowId)
      requires pool != {} && forall id | id in pool :: id in rows
      ensures first in pool && forall id | id in pool && id != first :: Before(rows, first, id)
    {
      first :| first in pool;
      var rest := pool - {first};
      while rest != {}
        invariant first in pool && first !in rest && rest <= pool
        invariant forall id | id in pool && id !in rest && id != first :: Before(rows, first, id)
        decreases rest
      {
        var id :| id in rest;
        if Before(rows, id, first) {
          first := id;
        }
        rest := rest - {id};
      }
    }

    /** The query of _due_rows_subquery. */
    method DueRows(now: Time, size: nat) returns (batch: seq<RowId>)
      ensures IsDueBatch(rows, now, size, batch)
    {
      var pool := set id | id in rows && Due(rows[id], now);
      batch := [];
      while pool != {} && |batch| < size
        invariant |batch| <= size
        invariant forall id | id in batch :: id in rows && Due(rows[id], now)
        invariant forall id | id in pool :: id in rows && Due(rows[id], now)
        invariant forall id | id in rows && Due(rows[id], now) :: id in pool || id in batch
        invariant forall k, id | k in batch && id in pool :: Before(rows, k, id)
        invariant forall i, j | 0 <= i < j < |batch| :: Before(rows, batch[i], batch[j])
        decreases pool
      {
        var first := FirstOf(pool);
        batch := batch + [first];
        pool := pool - {first};
      }
    }

    method ClaimDueRows(run: RunId, now: Time) returns (batch: seq<RowId>)
      modifies this`rows
      ensures IsDueBatch(old(rows), now, cfg.batchSize, batch)
      ensures Contents() == Claim(old(Contents()), run, now, batch)
    {
      batch := DueRows(now, cfg.batchSize);
      var i := 0;
      while i < |batch|
        invariant i <= |batch| && rows.Keys == old(rows).Keys
        invariant forall id | id in rows ::
                    rows[id] == if id in batch[..i] then Claimed(old(rows)[id], run, now) else old(rows)[id]
      {
        var id := batch[i];
        rows := rows[id := rows[id].(status := Sending, claimedAt := Some(now), claimedBy := Some(run))];
        i := i + 1;
        assert batch[..i] == batch[..i - 1] + [id];
      }
      assert batch[..i] == batch;
    }

    method ReleaseClaims(run: RunId) returns (released: nat)
      modifies this`rows
      ensures Contents() == Release(old(Contents()), run)
      ensures released == |set id | id in old(rows) && HeldBy(old(rows)[id], run)|
    {
      var held := set id | id in rows && HeldBy(rows[id], run);
      released := |held|;
      while held != {}
        invariant rows.Keys == old(rows).Keys
        invariant forall id | id in held :: id in rows && HeldBy(old(rows)[id], run)
        invariant forall id | id in rows ::
                    rows[id] == if HeldBy(old(rows)[id], run) && id !in held then Released(old(rows)[id])
                                else old(rows)[id]
        decreases held
      {
        var id :| id in held;
        var row := rows[id];
        row := row.(status := if row.blockedSince.Some? then RenderBlocked else Queued);
        rows := rows[id := row.(claimedAt := None, claimedBy := None)];
        held := held - {id};
      }
    }

    method PruneOutbox(now: Time) returns (deleted: nat)
      modifies this`rows
      ensures Contents() == Prune(cfg, old(Contents()), now)
      ensures deleted == |old(rows).Keys - rows.Keys|
    {
      var doomed := set id | id in rows && Prunable(cfg, rows[id], now);
      deleted := |doomed|;
      PruneRemoves(cfg, Contents(), now, doomed);
      rows := rows - doomed;
    }

    // ------------------------------------------------------------------ Slack notices

    /** _log_notification */
    method LogNotification(c: Slack.Call, status: LogStatus)
      modifies this`logs, this`nextLog
      ensures logs == old(logs) + [Log(old(nextLog), Channel.Slack, c.templateKey, "slack", c.workItem, status, None,
                                       c.loggedAt, None)]
      ensures nextLog == old(nextLog) + 1
    {
      logs := logs + [Log(nextLog, Channel.Slack, c.templateKey, "slack", c.workItem, status, None, c.loggedAt, None)];
      nextLog := nextLog + 1;
    }

    method SendSlackMessage(c: Slack.Call) returns (ok: bool)
      modifies this`logs, this`nextLog
      ensures Contents() == Slack.Post(slack, old(Contents()), c)
      ensures ok <==> Slack.Verdict(slack, old(logs), c) != LogFailed
    {
      if c.Debounces() && Slack.RecentlySent(logs, c) {
        LogNotification(c, LogDebounced);
        return true;
      }
      if !c.enabled {
        LogNotification(c, LogSuppressed);
        return true;
      }
      if CountFrom(logs, Slack.IsSlackFailure, c.breakerAt - slack.window) >= slack.threshold {
        LogNotification(c, LogCircuitOpen);
        return true;
      }
      if !c.configured {
        LogNotification(c, LogFailed);
        return false;
      }
      LogNotification(c, if c.accepted then LogSent else LogFailed);
      ok := c.accepted;
    }

    /** _alert: the notice is committed with its log row, or lost. */
    method PostAlert(a: Alert)
      modifies this`logs, this`nextLog
      ensures Contents() == DrainRun.PostAlert(slack, old(Contents()), a)
    {
      if a.Logged? {
        var _ := SendSlackMessage(a.call);
      }
    }

    // --------------------------------------------------------------- audit retention

    /** A month is thirty days. */
    method PruneEmailAudit(now: Time, bodyMonths: int, logRetention: Time) returns (summary: Audit.PruneSummary)
      modifies this`logs, this`bodies
      ensures (Contents(), summary) ==
              Audit.PruneAudit(old(Contents()), now - bodyMonths * (30 * DAY), now - logRetention)
    {
      var bodyCutoff := now - bodyMonths * (30 * DAY);
      summary := DeleteExpired(bodyCutoff, now - logRetention);
    }

    method DeleteExpired(bodyCutoff: Time, logCutoff: Time) returns (summary: Audit.PruneSummary)
      modifies this`logs, this`bodies
      ensures Contents() == Audit.PruneAudit(old(Contents()), bodyCutoff, logCutoff).0
      ensures summary == Audit.PruneAudit(old(Contents()), bodyCutoff, logCutoff).1
    {
      ghost var db := Contents();
      var deleted := DeleteBodies(Audit.BodySince(bodyCutoff));
      assert bodies == Audit.YoungBodies(db, bodyCutoff);
      var more := DeleteBodies(Audit.BodyOutside(Audit.DoomedLogs(logs, logCutoff)));
      assert bodies == Audit.LastingBodies(db, bodyCutoff, logCutoff);
      var kept := Audit.Keep(logs, Audit.LogSince(logCutoff));
      assert kept == Audit.LastingLogs(db, logCutoff);
      summary := Audit.PruneSummary(deleted + more, |logs| - |kept|);
      logs := kept;
    }

    /** Keeps the bodies p holds of, and counts the others. */
    method DeleteBodies(p: Body -> bool) returns (deleted: nat)
      modifies this`bodies
      ensures bodies == Audit.Keep(old(bodies), p) && deleted == |old(bodies)| - |bodies|
    {
      var kept, i := [], 0;
      deleted := 0;
      while i < |bodies|
        invariant i <= |bodies|
        invariant kept == Audit.Keep(bodies[..i], p) && deleted == i - |kept|
      {
        assert bodies[..i + 1][..i] == bodies[..i];
        if p(bodies[i]) {
          kept := kept + [bodies[i]];
        } else {
          deleted := deleted + 1;
        }
        i := i + 1;
      }
      assert bodies[..i] == bodies;
      bodies := kept;
    }

    // -------------------------------------------------------------------- the run loop

    /** One whole run. What the environment answers is `env`; the batch is what the claim takes. */
    method DrainOutbox(env: Setting) returns (summary: Summary, crashed: bool, ghost batch: seq<RowId>)
      requires forall id | id in rows :: rows[id].claimedBy != Some(env.run)
      modifies this
      ensures Fits(cfg, old(Contents()), env.(batch := batch))
      ensures Present(old(rows), batch)
      ensures var r := Drain(cfg, slack, old(Contents()), env.(batch := batch));
              Contents() == r.db && summary == r.summary && crashed == r.crashed
    {
      var e: Setting;
      summary, e := OpenRun(env);
      batch := e.batch;
      ghost var s := Opening(cfg, old(Contents()), e);
      var index, streak, renderKeys := 0, 0, {};
      crashed := false;
      while index < |e.batch| && summary.stopped.None? && !crashed
        invariant Present(old(rows), e.batch) && Present(rows, e.batch)
        invariant index <= |e.batch| && |s.outcomes| <= index
        invariant summary.stopped.None? && !crashed ==> |s.outcomes| == index
        invariant s == Loop(Contents(), summary, streak, renderKeys, s.outcomes, crashed)
        invariant RunLoop(cfg, slack, e, s) == Looped(cfg, slack, old(Contents()), e)
        decreases |e.batch| - index
      {
        TurnCounts(cfg, slack, e, s);
        summary, streak, renderKeys, crashed := TakeTurn(e, index, s.outcomes, summary, streak, renderKeys);
        s := Advance(cfg, slack, e, s);
        index := index + 1;
      }
      summary := CloseRun(e, crashed, renderKeys, summary, s);
    }

    /** The sweep, the first test of the daily limit, and the claim. */
    method OpenRun(env: Setting) returns (summary: Summary, e: Setting)
      requires forall id | id in rows :: rows[id].claimedBy != Some(env.run)
      modifies this
      ensures e == env.(batch := e.batch) && Fits(cfg, old(Contents()), e)
      ensures Present(old(rows), e.batch) && Present(rows, e.batch)
      ensures var s := Opening(cfg, old(Contents()), e); Contents() == s.db && summary == s.summary
    {
      var reaped := ReapStaleClaims(env.now);
      summary := Summary(0, 0, 0, 0, 0, 0, 0, None);
      if SentInLastDay(logs, env.now) >= cfg.dailyLimit {
        summary := summary.(stopped := Some(DailyLimit));
        e := env.(batch := []);
        assert Claim(Contents(), env.run, env.now, []).rows == rows;
      } else {
        var batch := ClaimDueRows(env.run, env.now);
        e := env.(batch := batch);
        summary := summary.(claimed := |batch|);
      }
    }

    /** One turn of the loop: the tests at its head, then the row. */
    method TakeTurn(env: Setting, index: nat, ghost outcomes: seq<Outcome>, summary0: Summary, streak0: nat,
            keys0: set<string>)
      returns (summary: Summary, streak: nat, renderKeys: set<string>, crashed: bool)
      requires index == |outcomes| < |env.batch| && env.batch[index] in rows
      modifies this
      ensures var s := Advance(cfg, slack, env, Loop(old(Contents()), summary0, streak0, keys0, outcomes, false));
              && Contents() == s.db && summary == s.summary && streak == s.streak && renderKeys == s.renderKeys
              && crashed == s.crashed
    {
      summary, streak, renderKeys, crashed := summary0, streak0, keys0, false;
      var t := env.turn(index);
      if t.sigterm {
        summary := summary.(stopped := Some(Sigterm));
      } else if t.beganAt - env.loopFrom > cfg.maxSeconds {
        summary := summary.(stopped := Some(WallClock));
      } else if index != 0 && index % CHECK_EVERY == 0 && SentInLastDay(logs, t.countAt) >= cfg.dailyLimit {
        summary := summary.(stopped := Some(DailyLimit));
      } else if t.fault {
        crashed := true;
      } else {
        var key := rows[env.batch[index]].templateKey;
        var outcome := ProcessRow(env.batch[index], t.x);
        summary, streak, renderKeys :=
          RecordOutcome(key, rows[env.batch[index]], outcome, t.alert, outcomes, summary, streak, renderKeys);
      }
    }

    /** The alert about broken templates, the release, and the prune of a run that did not crash. */
    method CloseRun(env: Setting, crashed: bool, renderKeys: set<string>, summary0: Summary, ghost s: Loop)
      returns (summary: Summary)
      requires s.db == Contents() && s.crashed == crashed && s.renderKeys == renderKeys && s.summary == summary0
      modifies this
      ensures var r := Closing(cfg, slack, env, s);
              Contents() == r.db && summary == r.summary && crashed == r.crashed
    {
      summary := summary0;
      if !crashed && renderKeys != {} {
        PostAlert(env.renderAlert);
      }
      var released := ReleaseClaims(env.run);
      if !crashed {
        var pruned := PruneOutbox(env.now);
        summary := summary.(pruned := pruned);
      }
    }

    /** The loop's bookkeeping for one processed row: counters, failure streak, alerts. */
    method RecordOutcome(key: string, row: Row, outcome: Outcome, a: Alert, ghost outcomes: seq<Outcome>,
            summary0: Summary, streak0: nat, keys0: set<string>)
      returns (summary: Summary, streak: nat, renderKeys: set<string>)
      modifies this`logs, this`nextLog
      ensures Loop(Contents(), summary, streak, renderKeys, outcomes + [outcome], false) ==
              Recorded(slack, Loop(old(Contents()), summary0, streak0, keys0, outcomes, false), key, row, outcome,
                       old(Contents()), a)
    {
      summary, streak, renderKeys := summary0, streak0, keys0;
      match outcome {
        case RaisedHalt(reason) =>
          summary := summary.(stopped := Some(AccountPaused(reason)));
          PostAlert(a);
        case RaisedThrottle(_, reason) =>
          summary := summary.(stopped := Some(SesThrottled(reason)));
        case Returned(status) =>
          if status == Sent {
            summary := summary.(sent := summary.sent + 1);
          } else if status == Suppressed {
            summary := summary.(suppressed := summary.suppressed + 1);
          } else if status == Cancelled {
            summary := summary.(cancelled := summary.cancelled + 1);
          } else if status == RenderBlocked {
            summary := summary.(renderBlocked := summary.renderBlocked + 1);
            renderKeys := renderKeys + {key};
          } else if status == Failed {
            summary := summary.(failed := summary.failed + 1);
            if row.blockedSince.Some? {
              renderKeys := renderKeys + {key};
            }
          }
          var transportFailed := status in {Queued, Failed} && row.blockedSince.None?;
          streak := if transportFailed then streak + 1 else 0;
          if streak >= FAILURE_LIMIT {
            summary := summary.(stopped := Some(TransportFailures));
            PostAlert(a);
          }
      }
    }
  }

  /** A turn keeps the batch present and, unless it stops the run, adds one outcome. */
  lemma TurnCounts(cfg: Config, slack: Slack.SlackConfig, env: Setting, s: Loop)
    requires |s.outcomes| < |env.batch| && Present(s.db.rows, env.batch) && !s.Stopped()
    ensures var s' := Advance(cfg, slack, env, s);
            && Present(s'.db.rows, env.batch)
            && |s.outcomes| <= |s'.outcomes| <= |s.outcomes| + 1
            && (!s'.Stopped() ==> |s'.outcomes| == |s.outcomes| + 1)
            && RunLoop(cfg, slack, env, s) == RunLoop(cfg, slack, env, s')
  {
    AdvanceKeepsRows(cfg, slack, env, s);
  }

  lemma PruneRemoves(cfg: Config, db: Db, now: Time, doomed: set<RowId>)
    requires doomed == set id | id in db.rows && Prunable(cfg, db.rows[id], now)
    ensures db.rows - doomed == Prune(cfg, db, now).rows
    ensures db.rows.Keys - (db.rows - doomed).Keys == doomed
  {
  }

  /** Recording an effect overwrites whatever was already written to the row. */
  lemma Overwritten(db: Db, id: RowId, row: Row, e: Effect, at: Time)
    ensures RecordEffect(db.(rows := db.rows[id := row]), id, e, at) == RecordEffect(db, id, e, at)
  {
    assert db.rows[id := row][id := e.row] == db.rows[id := e.row];
  }
}
