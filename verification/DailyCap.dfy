/** The daily cap over any sequence of serial drain runs, although a run counts only before its
    claim and once every fifty rows. */
module DailyCap {
  import opened Basics
  import opened Templates
  import opened Outbox
  import opened Windows
  import opened DrainRun
  import Slack

  /** A send the drainer logged; test sends write no outbox source. */
  predicate IsDrainSent(log: Log) { IsEmailSent(log) && log.source.Some? }

  function Cap(cfg: Config): int { cfg.dailyLimit + CHECK_EVERY - 1 }

  /** The clock only moves forward: no send precedes the start of its run or an earlier re-count. */
  ghost predicate Timed(env: Setting) {
    && (forall i: nat :: env.now <= env.turn(i).x.doneAt)
    && (forall i: nat, j: nat | i <= j :: env.turn(i).countAt <= env.turn(j).x.doneAt)
  }

  /** When the count that governs the i-th turn was made. */
  function CheckTime(env: Setting, i: nat): Time {
    if i < CHECK_EVERY then env.now else env.turn(i / CHECK_EVERY * CHECK_EVERY).countAt
  }

  lemma CheckTimePrecedes(env: Setting, i: nat)
    requires Timed(env)
    ensures CheckTime(env, i) <= env.turn(i).x.doneAt
    ensures (i + 1) % CHECK_EVERY != 0 ==>
              CheckTime(env, i + 1) == CheckTime(env, i) && (i + 1) % CHECK_EVERY == i % CHECK_EVERY + 1
    ensures i >= CHECK_EVERY && i % CHECK_EVERY == 0 ==> CheckTime(env, i) == env.turn(i).countAt
  {
    assert i / CHECK_EVERY * CHECK_EVERY <= i;
  }

  /** Between two counts the log gains at most one send a turn. */
  ghost predicate WithinBudget(cfg: Config, env: Setting, logs: seq<Log>, i: nat) {
    CountFrom(logs, IsEmailSent, CheckTime(env, i) - DAY) < cfg.dailyLimit + i % CHECK_EVERY
  }

  ghost predicate CapHolds(cfg: Config, env: Setting, s: Loop) {
    && Capped(s.db.logs, IsDrainSent, DAY, Cap(cfg))
    && (!s.Stopped() && (|s.outcomes| % CHECK_EVERY != 0 || |s.outcomes| == 0) ==>
          WithinBudget(cfg, env, s.db.logs, |s.outcomes|))
  }

  /** Appending one entry that is no email send. */
  lemma OtherEntry(cfg: Config, logs: seq<Log>, log: Log, since: Time)
    requires !IsEmailSent(log) && Capped(logs, IsDrainSent, DAY, Cap(cfg))
    ensures Capped(logs + [log], IsDrainSent, DAY, Cap(cfg))
    ensures CountFrom(logs + [log], IsEmailSent, since) == CountFrom(logs, IsEmailSent, since)
  {
    CapKept(logs, log, IsDrainSent, IsEmailSent, DAY, Cap(cfg), log.createdAt - DAY);
    AppendCounts(logs, log, IsEmailSent, since, since);
  }

  lemma AlertKeeps(cfg: Config, slack: Slack.SlackConfig, db: Db, a: Alert, since: Time)
    requires Capped(db.logs, IsDrainSent, DAY, Cap(cfg))
    ensures var logs := PostAlert(slack, db, a).logs;
            && Capped(logs, IsDrainSent, DAY, Cap(cfg))
            && CountFrom(logs, IsEmailSent, since) == CountFrom(db.logs, IsEmailSent, since)
  {
    if a.Logged? { OtherEntry(cfg, db.logs, Slack.NoticeLog(slack, db, a.call), since); }
  }

  /** Writing one row's effect adds at most one send, at the time the step ends. */
  lemma EffectKeeps(cfg: Config, db: Db, id: RowId, e: Effect, at: Time, since: Time)
    requires Capped(db.logs, IsDrainSent, DAY, Cap(cfg)) && since <= at
    requires CountFrom(db.logs, IsEmailSent, since - DAY) < Cap(cfg)
    ensures var logs := RecordEffect(db, id, e, at).logs;
            && Capped(logs, IsDrainSent, DAY, Cap(cfg))
            && CountFrom(logs, IsEmailSent, since - DAY) <= CountFrom(db.logs, IsEmailSent, since - DAY) + 1
  {
    var logs := RecordEffect(db, id, e, at).logs;
    if e.entry.Some? {
      var log := logs[|db.logs|];
      assert logs == db.logs + [log];
      CapKept(db.logs, log, IsDrainSent, IsEmailSent, DAY, Cap(cfg), since - DAY);
      AppendCounts(db.logs, log, IsEmailSent, since - DAY, since);
    }
  }

  /** The tables one turn leaves: as they were, or with one row's effect and perhaps an alert. */
  lemma AdvanceTables(cfg: Config, slack: Slack.SlackConfig, env: Setting, s: Loop, e: Effect)
    requires |s.outcomes| < |env.batch| && env.batch[|s.outcomes|] in s.db.rows && !s.Stopped()
    requires e == Process(cfg, s.db.rows[env.batch[|s.outcomes|]], env.turn(|s.outcomes|).x)
    ensures var i := |s.outcomes|;
            var s' := Advance(cfg, slack, env, s);
            var db' := RecordEffect(s.db, env.batch[i], e, env.turn(i).x.doneAt);
            if s'.outcomes == s.outcomes then s'.db == s.db && s'.Stopped()
            else
              && |s'.outcomes| == i + 1 && EarlyStop(cfg, env, s.db.logs, i).None?
              && (s'.db == db' || s'.db == PostAlert(slack, db', env.turn(i).alert))
  {
  }

  /** A turn that passed its tests is within budget. */
  lemma TurnWithinBudget(cfg: Config, env: Setting, s: Loop)
    requires Timed(env) && CapHolds(cfg, env, s) && !s.Stopped()
    requires EarlyStop(cfg, env, s.db.logs, |s.outcomes|).None?
    ensures WithinBudget(cfg, env, s.db.logs, |s.outcomes|)
  {
    CheckTimePrecedes(env, |s.outcomes|);
  }

  /** The cap, carried over one turn that took a step. */
  lemma CapCarried(cfg: Config, slack: Slack.SlackConfig, env: Setting, s: Loop, s': Loop, id: RowId, e: Effect)
    requires Timed(env) && CapHolds(cfg, env, s) && !s.Stopped()
    requires EarlyStop(cfg, env, s.db.logs, |s.outcomes|).None? && |s'.outcomes| == |s.outcomes| + 1
    requires var t := env.turn(|s.outcomes|);
             var db' := RecordEffect(s.db, id, e, t.x.doneAt);
             s'.db == db' || s'.db == PostAlert(slack, db', t.alert)
    ensures CapHolds(cfg, env, s')
  {
    var i := |s.outcomes|;
    var t := env.turn(i);
    var since := CheckTime(env, i);
    TurnWithinBudget(cfg, env, s);
    CheckTimePrecedes(env, i);
    EffectKeeps(cfg, s.db, id, e, t.x.doneAt, since);
    AlertKeeps(cfg, slack, RecordEffect(s.db, id, e, t.x.doneAt), t.alert, since - DAY);
    assert CountFrom(s'.db.logs, IsEmailSent, since - DAY) <= CountFrom(s.db.logs, IsEmailSent, since - DAY) + 1;
  }

  lemma CapStep(cfg: Config, slack: Slack.SlackConfig, env: Setting, s: Loop)
    requires Timed(env) && CapHolds(cfg, env, s)
    requires |s.outcomes| < |env.batch| && env.batch[|s.outcomes|] in s.db.rows && !s.Stopped()
    ensures CapHolds(cfg, env, Advance(cfg, slack, env, s))
  {
    var s' := Advance(cfg, slack, env, s);
    var id := env.batch[|s.outcomes|];
    var e := Process(cfg, s.db.rows[id], env.turn(|s.outcomes|).x);
    AdvanceTables(cfg, slack, env, s, e);
    if s'.outcomes != s.outcomes { CapCarried(cfg, slack, env, s, s', id, e); }
  }

  lemma {:induction false} LoopCapped(cfg: Config, slack: Slack.SlackConfig, env: Setting, s: Loop)
    requires Timed(env) && CapHolds(cfg, env, s)
    requires |s.outcomes| <= |env.batch| && Present(s.db.rows, env.batch)
    ensures Capped(RunLoop(cfg, slack, env, s).db.logs, IsDrainSent, DAY, Cap(cfg))
    decreases |env.batch| - |s.outcomes|, if s.Stopped() then 0 else 1
  {
    if !s.Stopped() && |s.outcomes| < |env.batch| {
      AdvanceKeepsRows(cfg, slack, env, s);
      CapStep(cfg, slack, env, s);
      LoopCapped(cfg, slack, env, Advance(cfg, slack, env, s));
    }
  }

  /** One run keeps the cap. */
  lemma RunKeepsCap(cfg: Config, slack: Slack.SlackConfig, db: Db, env: Setting)
    requires Timed(env) && Present(db.rows, env.batch)
    requires Capped(db.logs, IsDrainSent, DAY, Cap(cfg))
    ensures Capped(Drain(cfg, slack, db, env).db.logs, IsDrainSent, DAY, Cap(cfg))
  {
    var s0 := Opening(cfg, db, env);
    assert s0.db.logs == db.logs;
    LoopCapped(cfg, slack, env, s0);
    var s := Looped(cfg, slack, db, env);
    AlertKeeps(cfg, slack, s.db, env.renderAlert, 0);
  }

  // --------------------------------------------------------------- whole histories

  /** One run and what came before it: any rows, and any log entries but drainer sends. */
  datatype Era = Era(rows: map<RowId, Row>, extra: seq<Log>, env: Setting)

  function Between(db: Db, era: Era): Db { db.(rows := era.rows, logs := db.logs + era.extra) }

  ghost predicate Serial(cfg: Config, slack: Slack.SlackConfig, db: Db, eras: seq<Era>)
    decreases |eras|, 0
  {
    eras != [] ==>
      var past, era := eras[..|eras| - 1], eras[|eras| - 1];
      && Serial(cfg, slack, db, past)
      && Timed(era.env)
      && (forall log | log in era.extra :: !IsDrainSent(log))
      && Fits(cfg, Between(AfterRuns(cfg, slack, db, past), era), era.env)
  }

  ghost function AfterRuns(cfg: Config, slack: Slack.SlackConfig, db: Db, eras: seq<Era>): Db
    requires Serial(cfg, slack, db, eras)
    decreases |eras|, 1
  {
    if eras == [] then db
    else
      var past, era := eras[..|eras| - 1], eras[|eras| - 1];
      Drain(cfg, slack, Between(AfterRuns(cfg, slack, db, past), era), era.env).db
  }

  lemma {:induction false} ExtraKeeps(cfg: Config, logs: seq<Log>, extra: seq<Log>)
    requires Capped(logs, IsDrainSent, DAY, Cap(cfg)) && forall log | log in extra :: !IsDrainSent(log)
    ensures Capped(logs + extra, IsDrainSent, DAY, Cap(cfg))
  {
    if extra == [] {
      assert logs + extra == logs;
    } else {
      var past, log := extra[..|extra| - 1], extra[|extra| - 1];
      assert forall l | l in past :: l in extra;
      assert log in extra;
      ExtraKeeps(cfg, logs, past);
      CapKept(logs + past, log, IsDrainSent, IsDrainSent, DAY, Cap(cfg), log.createdAt - DAY);
      assert logs + extra == (logs + past) + [log];
    }
  }

  /** Over any sequence of serial runs, with anything but drainer sends in between, no 24 hours
      of the log hold more than the daily limit plus 49 sends by the drainer. */
  lemma {:induction false} DailyCapAlways(cfg: Config, slack: Slack.SlackConfig, db: Db, eras: seq<Era>)
    requires Serial(cfg, slack, db, eras) && Capped(db.logs, IsDrainSent, DAY, Cap(cfg))
    ensures Capped(AfterRuns(cfg, slack, db, eras).logs, IsDrainSent, DAY, Cap(cfg))
    decreases |eras|
  {
    if eras != [] {
      var past, era := eras[..|eras| - 1], eras[|eras| - 1];
      DailyCapAlways(cfg, slack, db, past);
      var db1 := AfterRuns(cfg, slack, db, past);
      ExtraKeeps(cfg, db1.logs, era.extra);
      RunKeepsCap(cfg, slack, Between(db1, era), era.env);
    }
  }

  // ---------------------------------------------------------- the cap can be reached

  function LivelyTurn(): Turn {
    var x := Inputs(true, true, true, PLAIN, 0, RenderOk(Rendered("subject", "body")), false, true, 0, Accepted("id"),
                    0);
    Turn(false, 0, 0, x, false, Lost)
  }

  /** A run at time 0 in which fifty due rows are all sent at once. */
  function Lively(run: RunId): Setting {
    Setting(0, run, seq(CHECK_EVERY, i requires 0 <= i => i), 0, (i: nat) => LivelyTurn(), Lost)
  }

  function LivelyRow(id: RowId): Row {
    Row("finalized", "a@b", Some(1), None, None, None, 0, Queued, None, None, 0, None, None, None, None, 0)
  }

  function LivelyRows(): map<RowId, Row> { map id: RowId | 0 <= id < CHECK_EVERY :: LivelyRow(id) }

  /** The claimed rows still waiting are sent one by one, each at time 0. */
  ghost predicate Waiting(run: RunId, s: Loop) {
    && |s.outcomes| <= CHECK_EVERY && !s.Stopped() && s.streak == 0
    && (forall id: RowId | id < CHECK_EVERY :: id in s.db.rows)
    && (forall id: RowId | |s.outcomes| <= id < CHECK_EVERY :: s.db.rows[id] == Claimed(LivelyRow(id), run, 0))
  }

  lemma LivelyStep(cfg: Config, slack: Slack.SlackConfig, run: RunId, s: Loop)
    requires cfg.maxSeconds >= 0 && Waiting(run, s) && |s.outcomes| < CHECK_EVERY
    ensures var s' := Advance(cfg, slack, Lively(run), s);
            && Waiting(run, s') && |s'.outcomes| == |s.outcomes| + 1
            && CountWindow(s'.db.logs, IsDrainSent, 0, DAY) == CountWindow(s.db.logs, IsDrainSent, 0, DAY) + 1
  {
    var i, db := |s.outcomes|, s.db;
    var e := Process(cfg, db.rows[i], LivelyTurn().x);
    var s' := Advance(cfg, slack, Lively(run), s);
    assert s'.db == RecordEffect(db, i, e, 0);
    AppendCounts(db.logs, s'.db.logs[|db.logs|], IsDrainSent, 0, DAY);
  }

  lemma {:induction false} LivelyLoop(cfg: Config, slack: Slack.SlackConfig, run: RunId, s: Loop)
    requires cfg.maxSeconds >= 0 && Waiting(run, s)
    ensures Present(s.db.rows, Lively(run).batch)
    ensures CountWindow(RunLoop(cfg, slack, Lively(run), s).db.logs, IsDrainSent, 0, DAY) ==
            CountWindow(s.db.logs, IsDrainSent, 0, DAY) + CHECK_EVERY - |s.outcomes|
    decreases CHECK_EVERY - |s.outcomes|
  {
    if |s.outcomes| < CHECK_EVERY {
      LivelyStep(cfg, slack, run, s);
      LivelyLoop(cfg, slack, run, Advance(cfg, slack, Lively(run), s));
    }
  }

  /** Sends by earlier runs, at the same instant. */
  function PastSends(n: nat): seq<Log> {
    if n == 0 then []
    else PastSends(n - 1) + [Log(n - 1, Email, "finalized", "a@b", Some(1), LogSent, None, 0, Some(CHECK_EVERY + n))]
  }

  lemma {:induction false} PastSendsCount(n: nat, since: Time, until: Time)
    requires since <= 0
    ensures CountFrom(PastSends(n), IsEmailSent, since) == n
    ensures CountIn(PastSends(n), IsDrainSent, since, until) == if until >= 0 then n else 0
  {
    if n > 0 {
      PastSendsCount(n - 1, since, until);
      assert PastSends(n)[..|PastSends(n)| - 1] == PastSends(n - 1);
    }
  }

  /** No window holds more sends than there were. */
  lemma {:induction false} CountAtMost(logs: seq<Log>, p: Log -> bool, since: Time, until: Time)
    ensures CountIn(logs, p, since, until) <= |logs|
  {
    if logs != [] { CountAtMost(logs[..|logs| - 1], p, since, until); }
  }

  lemma {:induction false} PastSendsLength(n: nat)
    ensures |PastSends(n)| == n
  {
    if n > 0 { PastSendsLength(n - 1); }
  }

  /** Fifty due rows, and one send less in the log than the limit allows. */
  function LivelyDb(limit: nat): Db
    requires limit > 0
  {
    Db(LivelyRows(), 2 * CHECK_EVERY + limit, PastSends(limit - 1), limit, [])
  }

  lemma LivelyFits(cfg: Config, run: RunId)
    requires cfg.batchSize >= CHECK_EVERY && cfg.dailyLimit > 0
    ensures Present(LivelyRows(), Lively(run).batch)
    ensures !OverLimit(cfg, LivelyDb(cfg.dailyLimit), Lively(run)) && Fits(cfg, LivelyDb(cfg.dailyLimit), Lively(run))
  {
    var db := LivelyDb(cfg.dailyLimit);
    var rows, batch := Swept(db, Lively(run)).rows, Lively(run).batch;
    PastSendsCount(cfg.dailyLimit - 1, -DAY, 0);
    assert rows == LivelyRows();
    forall id | id in rows
      ensures id in batch
    {
      assert batch[id] == id;
    }
  }

  lemma LivelyOpens(cfg: Config, run: RunId)
    requires cfg.dailyLimit > 0 && !OverLimit(cfg, LivelyDb(cfg.dailyLimit), Lively(run))
    ensures var s := Opening(cfg, LivelyDb(cfg.dailyLimit), Lively(run));
            Waiting(run, s) && s.outcomes == [] && s.db.logs == PastSends(cfg.dailyLimit - 1)
  {
    var batch := Lively(run).batch;
    forall id: RowId | id < CHECK_EVERY
      ensures id in batch
    {
      assert batch[id] == id;
    }
  }

  /** The cap is exact under every limit: from a log that keeps it, one send short of the limit,
      fifty due rows claimed at once are all sent. */
  lemma CapIsReached(cfg: Config, slack: Slack.SlackConfig, run: RunId)
    requires cfg.Positive() && cfg.batchSize >= CHECK_EVERY && cfg.dailyLimit > 0
    ensures var db := LivelyDb(cfg.dailyLimit);
            && Capped(db.logs, IsDrainSent, DAY, Cap(cfg))
            && Fits(cfg, db, Lively(run)) && Timed(Lively(run)) && Present(LivelyRows(), Lively(run).batch)
            && CountWindow(Drain(cfg, slack, db, Lively(run)).db.logs, IsDrainSent, 0, DAY) == Cap(cfg)
  {
    LivelyFits(cfg, run);
    LivelyOpens(cfg, run);
    LivelySends(cfg, slack, run);
    LivelyCloses(cfg, slack, run);
    LivelyStartsCapped(cfg);
  }

  lemma LivelySends(cfg: Config, slack: Slack.SlackConfig, run: RunId)
    requires cfg.Positive() && cfg.dailyLimit > 0
    requires !OverLimit(cfg, LivelyDb(cfg.dailyLimit), Lively(run)) && Present(LivelyRows(), Lively(run).batch)
    ensures var s := Looped(cfg, slack, LivelyDb(cfg.dailyLimit), Lively(run));
            CountWindow(s.db.logs, IsDrainSent, 0, DAY) == Cap(cfg)
  {
    LivelyOpens(cfg, run);
    LivelyLoop(cfg, slack, run, Opening(cfg, LivelyDb(cfg.dailyLimit), Lively(run)));
    PastSendsCount(cfg.dailyLimit - 1, 0, DAY);
  }

  lemma LivelyStartsCapped(cfg: Config)
    requires cfg.dailyLimit > 0
    ensures Capped(LivelyDb(cfg.dailyLimit).logs, IsDrainSent, DAY, Cap(cfg))
  {
    var logs := PastSends(cfg.dailyLimit - 1);
    PastSendsLength(cfg.dailyLimit - 1);
    forall x
      ensures CountWindow(logs, IsDrainSent, x, DAY) <= Cap(cfg)
    {
      CountAtMost(logs, IsDrainSent, x, x + DAY);
    }
  }

  lemma LivelyCloses(cfg: Config, slack: Slack.SlackConfig, run: RunId)
    requires cfg.dailyLimit > 0 && Present(LivelyRows(), Lively(run).batch)
    ensures var db := LivelyDb(cfg.dailyLimit);
            Drain(cfg, slack, db, Lively(run)).db.logs == Looped(cfg, slack, db, Lively(run)).db.logs
  {
  }
}
