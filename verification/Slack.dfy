/** app/services/slack.py: one notice to the channel, its debounce and its circuit breaker. */
module Slack {
  import opened Basics
  import opened Outbox
  import opened Windows

  datatype SlackConfig = SlackConfig(window: Time, threshold: nat)

  /** One call of send_slack_message: what it is about, what configuration and Slack answer, and
      the clock at the debounce test, at the breaker test and at the log write. */
  datatype Call = Call(
    templateKey: string,
    workItem: Option<int>,
    enabled: bool,
    configured: bool,
    accepted: bool,
    debounceAt: Time,
    breakerAt: Time,
    loggedAt: Time)
  {
    predicate InOrder() { debounceAt <= breakerAt <= loggedAt }

    /** A work item id of zero is falsy, so only other ids are debounced. */
    predicate Debounces() { workItem.Some? && workItem.value != 0 }
  }

  predicate IsSlackFailure(log: Log) { log.channel == Channel.Slack && log.status == LogFailed }

  predicate IsSentFor(log: Log, templateKey: string, workItem: Option<int>) {
    log.channel == Channel.Slack && log.status == LogSent && log.templateKey == templateKey && log.workItem == workItem
  }

  /** _was_recently_sent */
  predicate RecentlySent(logs: seq<Log>, c: Call) {
    exists log | log in logs :: IsSentFor(log, c.templateKey, c.workItem) && log.createdAt >= c.debounceAt - HOUR
  }

  /** _check_circuit_breaker */
  predicate BreakerOpen(cfg: SlackConfig, logs: seq<Log>, at: Time) {
    CountFrom(logs, IsSlackFailure, at - cfg.window) >= cfg.threshold
  }

  /** The status send_slack_message logs. */
  function Verdict(cfg: SlackConfig, logs: seq<Log>, c: Call): LogStatus {
    if c.Debounces() && RecentlySent(logs, c) then LogDebounced
    else if !c.enabled then LogSuppressed
    else if BreakerOpen(cfg, logs, c.breakerAt) then LogCircuitOpen
    else if c.configured && c.accepted then LogSent
    else LogFailed
  }

  function NoticeLog(cfg: SlackConfig, db: Db, c: Call): Log {
    Log(db.nextLog, Channel.Slack, c.templateKey, "slack", c.workItem, Verdict(cfg, db.logs, c), None, c.loggedAt, None)
  }

  /** send_slack_message, once its caller commits. */
  function Post(cfg: SlackConfig, db: Db, c: Call): Db {
    db.(logs := db.logs + [NoticeLog(cfg, db, c)], nextLog := db.nextLog + 1)
  }

  /** Calls one after another, each committed before the next reads the log. */
  function PostAll(cfg: SlackConfig, db: Db, calls: seq<Call>): Db {
    if calls == [] then db
    else Post(cfg, PostAll(cfg, db, calls[..|calls| - 1]), calls[|calls| - 1])
  }

  /** Two sends of one notice about one work item are more than an hour apart. */
  ghost predicate Debounced(logs: seq<Log>) {
    forall i, j | 0 <= i < j < |logs| && logs[j].workItem.Some? && logs[j].workItem.value != 0 &&
                  IsSentFor(logs[j], logs[j].templateKey, logs[j].workItem) &&
                  IsSentFor(logs[i], logs[j].templateKey, logs[j].workItem) ::
      logs[j].createdAt > logs[i].createdAt + HOUR
  }

  ghost predicate SlackSound(cfg: SlackConfig, logs: seq<Log>) {
    Capped(logs, IsSlackFailure, cfg.window, cfg.threshold) && Debounced(logs)
  }

  /** One call keeps both windows. */
  lemma PostKeeps(cfg: SlackConfig, db: Db, c: Call)
    requires c.InOrder() && SlackSound(cfg, db.logs)
    ensures SlackSound(cfg, Post(cfg, db, c).logs)
  {
    var log := NoticeLog(cfg, db, c);
    CapKept(db.logs, log, IsSlackFailure, IsSlackFailure, cfg.window, cfg.threshold, c.breakerAt - cfg.window);
    var logs' := Post(cfg, db, c).logs;
    forall i, j | 0 <= i < j < |logs'| && logs'[j].workItem.Some? && logs'[j].workItem.value != 0 &&
                  IsSentFor(logs'[j], logs'[j].templateKey, logs'[j].workItem) &&
                  IsSentFor(logs'[i], logs'[j].templateKey, logs'[j].workItem)
      ensures logs'[j].createdAt > logs'[i].createdAt + HOUR
    {
      if j == |db.logs| { assert logs'[i] in db.logs; }
    }
  }

  /** After any serial committed calls, every breaker window of the log holds at most the threshold number
      of failed rows, and repeated sends of one notice are more than an hour apart. */
  lemma {:induction false} SlidingWindows(cfg: SlackConfig, db: Db, calls: seq<Call>)
    requires SlackSound(cfg, db.logs) && forall c | c in calls :: c.InOrder()
    ensures SlackSound(cfg, PostAll(cfg, db, calls).logs)
  {
    if calls != [] {
      var past := calls[..|calls| - 1];
      assert forall c | c in past :: c in calls;
      SlidingWindows(cfg, db, past);
      PostKeeps(cfg, PostAll(cfg, db, past), calls[|calls| - 1]);
    }
  }

  /** What a call logs, case by case: the first of the rules that applies, in the order of the
      source, on a row about the call's own notice and work item. */
  lemma VerdictExactly(cfg: SlackConfig, db: Db, c: Call)
    ensures var log := NoticeLog(cfg, db, c);
            var repeated :=
              && c.workItem.Some? && c.workItem.value != 0
              && exists l | l in db.logs ::
                   && l.channel == Channel.Slack && l.status == LogSent && l.templateKey == c.templateKey
                   && l.workItem == c.workItem && l.createdAt + 60 * MINUTE >= c.debounceAt;
            var tripped := CountFrom(db.logs, IsSlackFailure, c.breakerAt - cfg.window) >= cfg.threshold;
            && Post(cfg, db, c).logs == db.logs + [log]
            && log.channel == Channel.Slack && log.templateKey == c.templateKey && log.workItem == c.workItem
            && log.createdAt == c.loggedAt && log.source.None?
            && (log.status == LogDebounced <==> repeated)
            && (log.status == LogSuppressed <==> !repeated && !c.enabled)
            && (log.status == LogCircuitOpen <==> !repeated && c.enabled && tripped)
            && (log.status == LogSent <==> !repeated && c.enabled && !tripped && c.configured && c.accepted)
            && (log.status == LogFailed <==> !repeated && c.enabled && !tripped && !(c.configured && c.accepted))
  {
  }
}
