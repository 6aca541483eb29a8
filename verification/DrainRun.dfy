/** One run of drain_outbox as a function of the tables and of everything the run meets. Module
    Drainer has the loop itself; here are the facts about whole runs and sequences of runs. */
module DrainRun {
  import opened Basics
  import opened Outbox
  import opened Windows
  import Slack

  const FAILURE_LIMIT := 5
  const CHECK_EVERY := 50

  datatype StopReason =
    | Sigterm
    | WallClock
    | DailyLimit
    | AccountPaused(reason: Reason)
    | SesThrottled(reason: Reason)
    | TransportFailures

  datatype Summary = Summary(
    claimed: nat,
    sent: nat,
    failed: nat,
    suppressed: nat,
    cancelled: nat,
    renderBlocked: nat,
    pruned: nat,
    stopped: Option<StopReason>)

  /** An alert either reaches send_slack_message and is logged, or is lost to an exception. */
  datatype Alert = Lost | Logged(call: Slack.Call)

  /** What one turn of the loop meets: a pending SIGTERM, the clock at its head and at the daily
      re-count, the surroundings of process_row, a failure that loses what process_row did (an
      error it does not contain, or a failed commit, at the latest after the SES call), and the
      alert the turn may post. */
  datatype Turn = Turn(sigterm: bool, beganAt: Time, countAt: Time, x: Inputs, fault: bool, alert: Alert)

  /** What one run meets. `batch` is what the database selects for the claim. */
  datatype Setting = Setting(
    now: Time,
    run: RunId,
    batch: seq<RowId>,
    loopFrom: Time,
    turn: nat -> Turn,
    renderAlert: Alert)

  datatype Loop = Loop(
    db: Db,
    summary: Summary,
    streak: nat,
    renderKeys: set<string>,
    outcomes: seq<Outcome>,
    crashed: bool)
  {
    predicate Stopped() { summary.stopped.Some? || crashed }
  }

  datatype Result = Result(db: Db, summary: Summary, outcomes: seq<Outcome>, crashed: bool)

  predicate IsEmailSent(log: Log) { log.channel == Email && log.status == LogSent }

  /** _sent_in_last_24h */
  function SentInLastDay(logs: seq<Log>, now: Time): nat { CountFrom(logs, IsEmailSent, now - DAY) }

  /** _alert */
  function PostAlert(slack: Slack.SlackConfig, db: Db, a: Alert): Db {
    if a.Logged? then Slack.Post(slack, db, a.call) else db
  }

  function Tallied(s: Summary, status: Status): Summary {
    match status
    case Sent => s.(sent := s.sent + 1)
    case Suppressed => s.(suppressed := s.suppressed + 1)
    case Cancelled => s.(cancelled := s.cancelled + 1)
    case RenderBlocked => s.(renderBlocked := s.renderBlocked + 1)
    case Failed => s.(failed := s.failed + 1)
    case _ => s
  }

  /** The loop's own test for a transport failure, on the row as processing leaves it. */
  predicate LooksLikeTransportFailure(status: Status, row: Row) {
    status in {Queued, Failed} && row.blockedSince.None?
  }

  /** Why a turn stops before touching its row. */
  function EarlyStop(cfg: Config, env: Setting, logs: seq<Log>, i: nat): Option<StopReason> {
    var t := env.turn(i);
    if t.sigterm then Some(Sigterm)
    else if t.beganAt - env.loopFrom > cfg.maxSeconds then Some(WallClock)
    else if i != 0 && i % CHECK_EVERY == 0 && SentInLastDay(logs, t.countAt) >= cfg.dailyLimit then Some(DailyLimit)
    else None
  }

  /** A row of this template key has been processed: `row` and `db` are what the step left. */
  function Recorded(slack: Slack.SlackConfig, s: Loop, key: string, row: Row, outcome: Outcome, db: Db,
          a: Alert): Loop {
    var s := s.(outcomes := s.outcomes + [outcome]);
    match outcome
    case RaisedHalt(reason) =>
      s.(db := PostAlert(slack, db, a), summary := s.summary.(stopped := Some(AccountPaused(reason))))
    case RaisedThrottle(_, reason) =>
      s.(db := db, summary := s.summary.(stopped := Some(SesThrottled(reason))))
    case Returned(status) =>
      var streak := if LooksLikeTransportFailure(status, row) then s.streak + 1 else 0;
      var keys := if status == RenderBlocked || (status == Failed && row.blockedSince.Some?)
                  then s.renderKeys + {key} else s.renderKeys;
      var summary := Tallied(s.summary, status);
      if streak >= FAILURE_LIMIT then
        s.(db := PostAlert(slack, db, a), summary := summary.(stopped := Some(TransportFailures)),
           streak := streak, renderKeys := keys)
      else s.(db := db, summary := summary, streak := streak, renderKeys := keys)
  }

  /** One turn of the loop. */
  function Advance(cfg: Config, slack: Slack.SlackConfig, env: Setting, s: Loop): Loop
    requires |s.outcomes| < |env.batch| && env.batch[|s.outcomes|] in s.db.rows
  {
    var i := |s.outcomes|;
    var stop := EarlyStop(cfg, env, s.db.logs, i);
    if stop.Some? then s.(summary := s.summary.(stopped := stop))
    else if env.turn(i).fault then s.(crashed := true)
    else
      var id := env.batch[i];
      var x := env.turn(i).x;
      var e := Process(cfg, s.db.rows[id], x);
      Recorded(slack, s, s.db.rows[id].templateKey, e.row, e.outcome, ProcessRow(cfg, s.db, id, x), env.turn(i).alert)
  }

  predicate Present(rows: map<RowId, Row>, batch: seq<RowId>) { forall id | id in batch :: id in rows }

  lemma AdvanceKeepsRows(cfg: Config, slack: Slack.SlackConfig, env: Setting, s: Loop)
    requires |s.outcomes| < |env.batch| && env.batch[|s.outcomes|] in s.db.rows
    ensures Advance(cfg, slack, env, s).db.rows.Keys == s.db.rows.Keys
  {
  }

  function RunLoop(cfg: Config, slack: Slack.SlackConfig, env: Setting, s: Loop): Loop
    requires |s.outcomes| <= |env.batch| && Present(s.db.rows, env.batch)
    decreases |env.batch| - |s.outcomes|, if s.Stopped() then 0 else 1
  {
    if s.Stopped() || |s.outcomes| == |env.batch| then s
    else
      AdvanceKeepsRows(cfg, slack, env, s);
      RunLoop(cfg, slack, env, Advance(cfg, slack, env, s))
  }

  /** The tables once stale claims are reaped: what the claim selects from. */
  function Swept(db: Db, env: Setting): Db { Reap(db, env.now) }

  predicate OverLimit(cfg: Config, db: Db, env: Setting) { SentInLastDay(db.logs, env.now) >= cfg.dailyLimit }

  /** What the database guarantees a run: a fresh id, and the due batch in claim order. A run
      that is over the daily limit claims nothing. */
  ghost predicate Fits(cfg: Config, db: Db, env: Setting) {
    && (forall id | id in db.rows :: db.rows[id].claimedBy != Some(env.run))
    && (if OverLimit(cfg, db, env) then env.batch == []
        else IsDueBatch(Swept(db, env).rows, env.now, cfg.batchSize, env.batch))
  }

  function Opening(cfg: Config, db: Db, env: Setting): Loop {
    Loop(Claim(Swept(db, env), env.run, env.now, env.batch),
         Summary(|env.batch|, 0, 0, 0, 0, 0, 0, if OverLimit(cfg, db, env) then Some(DailyLimit) else None),
         0, {}, [], false)
  }

  /** The loop's end state. */
  function Looped(cfg: Config, slack: Slack.SlackConfig, db: Db, env: Setting): Loop
    requires Present(db.rows, env.batch)
  {
    RunLoop(cfg, slack, env, Opening(cfg, db, env))
  }

  function Closing(cfg: Config, slack: Slack.SlackConfig, env: Setting, s: Loop): Result {
    var alerted := if !s.crashed && s.renderKeys != {} then PostAlert(slack, s.db, env.renderAlert) else s.db;
    var released := Release(alerted, env.run);
    if s.crashed then Result(released, s.summary, s.outcomes, true)
    else
      var pruned := Prune(cfg, released, env.now);
      Result(pruned, s.summary.(pruned := |released.rows.Keys - pruned.rows.Keys|), s.outcomes, false)
  }

  /** drain_outbox */
  function Drain(cfg: Config, slack: Slack.SlackConfig, db: Db, env: Setting): Result
    requires Present(db.rows, env.batch)
  {
    Closing(cfg, slack, env, Looped(cfg, slack, db, env))
  }
}
