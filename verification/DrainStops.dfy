/** When a run of drain_outbox stops and why, whom it alerts, and what its prune takes, said of
    what the run meets and of its result. */
module DrainStops {
  import opened Basics
  import opened Outbox
  import opened Outcomes
  import opened Windows
  import opened DrainRun
  import opened DrainFacts
  import Slack

  // ------------------------------------------------------------------- the head of a turn

  /** The sends among a run's first n rows that fall at or after an instant. */
  function SendsBy(cfg: Config, env: Setting, rows: map<RowId, Row>, n: nat, since: Time): nat
    requires Present(rows, env.batch) && n <= |env.batch|
  {
    if n == 0 then 0
    else
      SendsBy(cfg, env, rows, n - 1, since) +
      if StepOf(cfg, env, rows, n - 1).row.status == Sent && env.turn(n - 1).x.doneAt >= since then 1 else 0
  }

  /** Every fiftieth turn after the first counts the sends of the last day, earlier ones and its own. */
  predicate FullAt(cfg: Config, env: Setting, db: Db, rows: map<RowId, Row>, k: nat)
    requires Present(rows, env.batch) && k <= |env.batch|
  {
    && k > 0 && k % 50 == 0
    && var since := env.turn(k).countAt - 24 * HOUR;
       CountFrom(db.logs, IsEmailSent, since) + SendsBy(cfg, env, rows, k, since) >= cfg.dailyLimit
  }

  predicate LateAt(cfg: Config, env: Setting, k: nat) { env.turn(k).beganAt - env.loopFrom > cfg.maxSeconds }

  /** The k-th turn goes on to its row. */
  predicate GoesOn(cfg: Config, env: Setting, db: Db, rows: map<RowId, Row>, k: nat)
    requires Present(rows, env.batch) && k <= |env.batch|
  {
    !env.turn(k).sigterm && !LateAt(cfg, env, k) && !FullAt(cfg, env, db, rows, k)
  }

  function HeadStop(cfg: Config, env: Setting, db: Db, rows: map<RowId, Row>, k: nat): Option<StopReason>
    requires Present(rows, env.batch) && k <= |env.batch|
  {
    if env.turn(k).sigterm then Some(Sigterm)
    else if LateAt(cfg, env, k) then Some(WallClock)
    else if FullAt(cfg, env, db, rows, k) then Some(DailyLimit)
    else None
  }

  // ------------------------------------------------------------------------- one turn

  /** What a turn that meets `early` at its head, and e at its row, makes of the loop's state. */
  predicate Turned(slack: Slack.SlackConfig, env: Setting, s: Loop, s': Loop, e: Effect, early: Option<StopReason>)
    requires |s.outcomes| < |env.batch|
  {
    var n := |s.outcomes|;
    var db' := RecordEffect(s.db, env.batch[n], e, env.turn(n).x.doneAt);
    if early.Some? then s' == s.(summary := s.summary.(stopped := early))
    else if env.turn(n).fault then s' == s.(crashed := true)
    else
      && s'.outcomes == s.outcomes + [e.outcome] && !s'.crashed
      && s'.db == (if AlertDue(e.outcome, s'.summary.stopped) then PostAlert(slack, db', env.turn(n).alert) else db')
      && match e.outcome
         case RaisedHalt(reason) =>
           s'.summary.stopped == Some(AccountPaused(reason)) && s'.renderKeys == s.renderKeys
         case RaisedThrottle(_, reason) =>
           s'.summary.stopped == Some(SesThrottled(reason)) && s'.renderKeys == s.renderKeys
         case Returned(status) =>
           && s'.summary.stopped in {None, Some(TransportFailures)}
           && (s'.renderKeys != {} <==>
               s.renderKeys != {} || status == RenderBlocked || (status == Failed && e.row.blockedSince.Some?))
  }

  /** An account halt and a fifth refusal call for an alert; the throttle does not. */
  predicate AlertDue(outcome: Outcome, stopped: Option<StopReason>) {
    outcome.RaisedHalt? || stopped == Some(TransportFailures)
  }

  lemma TurnExactly(cfg: Config, slack: Slack.SlackConfig, env: Setting, s: Loop, e: Effect)
    requires |s.outcomes| < |env.batch| && env.batch[|s.outcomes|] in s.db.rows && !s.Stopped()
    requires e == Process(cfg, s.db.rows[env.batch[|s.outcomes|]], env.turn(|s.outcomes|).x)
    ensures Turned(slack, env, s, Advance(cfg, slack, env, s), e, EarlyStop(cfg, env, s.db.logs, |s.outcomes|))
  {
  }

  function Notices(logs: seq<Log>): nat {
    if logs == [] then 0
    else Notices(logs[..|logs| - 1]) + if logs[|logs| - 1].channel == Channel.Slack then 1 else 0
  }

  lemma NoticesAppend(logs: seq<Log>, log: Log)
    ensures Notices(logs + [log]) == Notices(logs) + if log.channel == Channel.Slack then 1 else 0
  {
    assert (logs + [log])[..|logs|] == logs;
  }

  /** What recording a row's step does to the counts of sends and notices. */
  lemma EffectCounts(db: Db, id: RowId, e: Effect, at: Time, since: Time)
    ensures var logs := RecordEffect(db, id, e, at).logs;
            && CountFrom(logs, IsEmailSent, since) ==
               CountFrom(db.logs, IsEmailSent, since) +
               (if e.entry.Some? && e.entry.value.status == LogSent && at >= since then 1 else 0)
            && Notices(logs) == Notices(db.logs)
  {
    if e.entry.Some? {
      var log := RecordEffect(db, id, e, at).logs[|db.logs|];
      AppendCounts(db.logs, log, IsEmailSent, since, since);
      NoticesAppend(db.logs, log);
    }
  }

  lemma AlertCounts(slack: Slack.SlackConfig, db: Db, a: Alert)
    ensures Notices(PostAlert(slack, db, a).logs) == Notices(db.logs) + if a.Logged? then 1 else 0
  {
    if a.Logged? { NoticesAppend(db.logs, Slack.NoticeLog(slack, db, a.call)); }
  }

  // ------------------------------------------------------------------ the loop's books

  /** The step leaves its row to a broken template. */
  predicate RenderTrouble(e: Effect) {
    e.row.status == RenderBlocked || (e.row.status == Failed && e.row.blockedSince.Some?)
  }

  ghost predicate Troubled(steps: seq<Effect>, n: nat)
    requires n <= |steps|
  {
    exists k | 0 <= k < n :: RenderTrouble(steps[k])
  }

  /** Whether the last row a run took stopped it with an alert that reached the log. */
  predicate AlertedBy(env: Setting, outcomes: seq<Outcome>, stopped: Option<StopReason>) {
    && outcomes != [] && env.turn(|outcomes| - 1).alert.Logged?
    && AlertDue(outcomes[|outcomes| - 1], stopped)
  }

  /** Why the loop stands where it stands. */
  ghost predicate StandsRight(cfg: Config, env: Setting, db: Db, rows: map<RowId, Row>, s: Loop)
    requires Present(rows, env.batch)
  {
    var n := |s.outcomes|;
    && n <= |env.batch|
    && (forall k | 0 <= k < n :: GoesOn(cfg, env, db, rows, k) && !env.turn(k).fault)
    && (s.crashed ==> n < |env.batch| && GoesOn(cfg, env, db, rows, n) && env.turn(n).fault && s.summary.stopped.None?)
    && (match s.summary.stopped
        case None => n > 0 ==> s.outcomes[n - 1].Returned?
        case Some(TransportFailures) => n > 0 && s.outcomes[n - 1].Returned?
        case Some(AccountPaused(reason)) => n > 0 && s.outcomes[n - 1] == RaisedHalt(reason)
        case Some(SesThrottled(reason)) =>
          n > 0 && s.outcomes[n - 1].RaisedThrottle? && s.outcomes[n - 1].reason == reason
        case _ =>
          && n < |env.batch| && HeadStop(cfg, env, db, rows, n) == s.summary.stopped
          && (n > 0 ==> s.outcomes[n - 1].Returned?))
  }

  /** What the loop has written: its sends, its alerts, and the templates it will report. */
  ghost predicate SendsRight(cfg: Config, env: Setting, db: Db, rows: map<RowId, Row>, s: Loop)
    requires Present(rows, env.batch) && |s.outcomes| <= |env.batch|
  {
    forall since ::
      CountFrom(s.db.logs, IsEmailSent, since) ==
      CountFrom(db.logs, IsEmailSent, since) + SendsBy(cfg, env, rows, |s.outcomes|, since)
  }

  predicate NoticesRight(env: Setting, db: Db, s: Loop) {
    Notices(s.db.logs) == Notices(db.logs) + if AlertedBy(env, s.outcomes, s.summary.stopped) then 1 else 0
  }

  ghost predicate WritesRight(cfg: Config, env: Setting, db: Db, rows: map<RowId, Row>, s: Loop)
    requires Present(rows, env.batch) && |s.outcomes| <= |env.batch|
  {
    && (!s.Stopped() ==> SendsRight(cfg, env, db, rows, s))
    && NoticesRight(env, db, s)
    && (s.renderKeys != {} <==> Troubled(Steps(cfg, env, rows), |s.outcomes|))
  }

  ghost predicate Books(cfg: Config, env: Setting, db: Db, rows: map<RowId, Row>, s: Loop)
    requires Present(rows, env.batch) && Distinct(env.batch)
  {
    && Progress(env, rows, Steps(cfg, env, rows), s)
    && StandsRight(cfg, env, db, rows, s) && WritesRight(cfg, env, db, rows, s)
  }

  lemma HeadAgrees(cfg: Config, env: Setting, db: Db, rows: map<RowId, Row>, s: Loop)
    requires Present(rows, env.batch) && |s.outcomes| < |env.batch| && !s.Stopped()
    requires WritesRight(cfg, env, db, rows, s)
    ensures EarlyStop(cfg, env, s.db.logs, |s.outcomes|) == HeadStop(cfg, env, db, rows, |s.outcomes|)
  {
    var since := env.turn(|s.outcomes|).countAt - 24 * HOUR;
    assert CountFrom(s.db.logs, IsEmailSent, since) ==
           CountFrom(db.logs, IsEmailSent, since) + SendsBy(cfg, env, rows, |s.outcomes|, since);
  }

  lemma StandsNext(cfg: Config, slack: Slack.SlackConfig, env: Setting, db: Db, rows: map<RowId, Row>, s: Loop,
          s': Loop, e: Effect)
    requires Present(rows, env.batch) && StandsRight(cfg, env, db, rows, s)
    requires |s.outcomes| < |env.batch| && !s.Stopped()
    requires Turned(slack, env, s, s', e, HeadStop(cfg, env, db, rows, |s.outcomes|))
    ensures StandsRight(cfg, env, db, rows, s')
  {
  }

  lemma SendsNext(cfg: Config, slack: Slack.SlackConfig, env: Setting, db: Db, rows: map<RowId, Row>, s: Loop, s': Loop)
    requires Present(rows, env.batch) && |s.outcomes| < |env.batch| && SendsRight(cfg, env, db, rows, s)
    requires Turned(slack, env, s, s', StepOf(cfg, env, rows, |s.outcomes|), HeadStop(cfg, env, db, rows, |s.outcomes|))
    requires !s'.Stopped()
    ensures |s'.outcomes| <= |env.batch| && SendsRight(cfg, env, db, rows, s')
  {
    StepWrites(cfg, env, rows, |s.outcomes|);
    SendsGrow(cfg, env, db, rows, s, s', StepOf(cfg, env, rows, |s.outcomes|));
  }

  lemma SendsGrow(cfg: Config, env: Setting, db: Db, rows: map<RowId, Row>, s: Loop, s': Loop, e: Effect)
    requires Present(rows, env.batch) && |s.outcomes| < |env.batch| && SendsRight(cfg, env, db, rows, s)
    requires e == StepOf(cfg, env, rows, |s.outcomes|) && |s'.outcomes| == |s.outcomes| + 1
    requires s'.db.logs == RecordEffect(s.db, env.batch[|s.outcomes|], e, env.turn(|s.outcomes|).x.doneAt).logs
    requires e.entry.Some? && e.entry.value.status == LogSent <==> e.row.status == Sent
    ensures SendsRight(cfg, env, db, rows, s')
  {
    var n := |s.outcomes|;
    forall since
      ensures CountFrom(s'.db.logs, IsEmailSent, since) ==
              CountFrom(db.logs, IsEmailSent, since) + SendsBy(cfg, env, rows, n + 1, since)
    {
      EffectCounts(s.db, env.batch[n], e, env.turn(n).x.doneAt, since);
      SendsByMore(cfg, env, rows, n, since, e);
    }
  }

  lemma SendsByMore(cfg: Config, env: Setting, rows: map<RowId, Row>, n: nat, since: Time, e: Effect)
    requires Present(rows, env.batch) && n < |env.batch| && e == StepOf(cfg, env, rows, n)
    ensures SendsBy(cfg, env, rows, n + 1, since) ==
            SendsBy(cfg, env, rows, n, since) + if e.row.status == Sent && env.turn(n).x.doneAt >= since then 1 else 0
  {
  }

  lemma NoticesNext(slack: Slack.SlackConfig, env: Setting, db: Db, s: Loop, s': Loop, e: Effect,
          early: Option<StopReason>)
    requires |s.outcomes| < |env.batch| && !s.Stopped() && early != Some(TransportFailures)
    requires s.outcomes != [] ==> s.outcomes[|s.outcomes| - 1].Returned?
    requires Turned(slack, env, s, s', e, early) && NoticesRight(env, db, s)
    ensures NoticesRight(env, db, s')
  {
    var n := |s.outcomes|;
    var db' := RecordEffect(s.db, env.batch[n], e, env.turn(n).x.doneAt);
    EffectCounts(s.db, env.batch[n], e, env.turn(n).x.doneAt, 0);
    AlertCounts(slack, db', env.turn(n).alert);
  }

  lemma TroubleNext(cfg: Config, slack: Slack.SlackConfig, env: Setting, rows: map<RowId, Row>, s: Loop, s': Loop,
          early: Option<StopReason>)
    requires Present(rows, env.batch) && |s.outcomes| < |env.batch|
    requires Turned(slack, env, s, s', Steps(cfg, env, rows)[|s.outcomes|], early)
    requires s.renderKeys != {} <==> Troubled(Steps(cfg, env, rows), |s.outcomes|)
    ensures |s'.outcomes| <= |env.batch| && (s'.renderKeys != {} <==> Troubled(Steps(cfg, env, rows), |s'.outcomes|))
  {
    var n, steps := |s.outcomes|, Steps(cfg, env, rows);
    StepWrites(cfg, env, rows, n);
    TroubledMore(steps, n);
  }

  lemma TroubledMore(steps: seq<Effect>, n: nat)
    requires n < |steps|
    ensures Troubled(steps, n + 1) <==> Troubled(steps, n) || RenderTrouble(steps[n])
  {
  }

  lemma BooksNext(cfg: Config, slack: Slack.SlackConfig, env: Setting, db: Db, rows: map<RowId, Row>, s: Loop)
    requires Present(rows, env.batch) && Distinct(env.batch) && Books(cfg, env, db, rows, s)
    requires |s.outcomes| < |env.batch| && !s.Stopped() && Present(s.db.rows, env.batch)
    ensures Books(cfg, env, db, rows, Advance(cfg, slack, env, s))
  {
    var n, s' := |s.outcomes|, Advance(cfg, slack, env, s);
    var e, early := Steps(cfg, env, rows)[n], HeadStop(cfg, env, db, rows, n);
    ProgressStep(cfg, slack, env, rows, s);
    TurnExactly(cfg, slack, env, s, e);
    HeadAgrees(cfg, env, db, rows, s);
    StandsNext(cfg, slack, env, db, rows, s, s', e);
    NoticesNext(slack, env, db, s, s', e, early);
    TroubleNext(cfg, slack, env, rows, s, s', early);
    if !s'.Stopped() { SendsNext(cfg, slack, env, db, rows, s, s'); }
  }

  /** A step's entry and outcome name the status it leaves. */
  lemma StepWrites(cfg: Config, env: Setting, rows: map<RowId, Row>, k: nat)
    requires Present(rows, env.batch) && k < |env.batch|
    ensures var e := StepOf(cfg, env, rows, k);
            && (e.entry.Some? && e.entry.value.status == LogSent <==> e.row.status == Sent)
            && (e.outcome.Returned? ==> e.outcome.status == e.row.status)
            && (RenderTrouble(e) ==> e.outcome.Returned?)
  {
    var row, x := Claimed(rows[env.batch[k]], env.run, env.now), env.turn(k).x;
    EntryExactly(cfg, row, x);
    OutcomeExactly(cfg, row, x);
    StatusExactly(cfg, row, x);
    ClocksExactly(cfg, row, x);
  }

  lemma {:induction false} LoopBooks(cfg: Config, slack: Slack.SlackConfig, env: Setting, db: Db, rows: map<RowId, Row>,
          s: Loop)
    requires Present(rows, env.batch) && Distinct(env.batch) && Books(cfg, env, db, rows, s)
    ensures Present(s.db.rows, env.batch) && |s.outcomes| <= |env.batch|
    ensures var s' := RunLoop(cfg, slack, env, s);
            Books(cfg, env, db, rows, s') && (s'.Stopped() || |s'.outcomes| == |env.batch|)
    decreases |env.batch| - |s.outcomes|, if s.Stopped() then 0 else 1
  {
    if !s.Stopped() && |s.outcomes| < |env.batch| {
      AdvanceGrows(cfg, slack, env, s);
      BooksNext(cfg, slack, env, db, rows, s);
      LoopBooks(cfg, slack, env, db, rows, Advance(cfg, slack, env, s));
    }
  }

  /** The loop of a run that fits, from its opening. */
  lemma LoopedBooks(cfg: Config, slack: Slack.SlackConfig, db: Db, env: Setting)
    requires Fits(cfg, db, env) && !OverLimit(cfg, db, env)
    ensures Present(db.rows, env.batch) && Distinct(env.batch)
    ensures var s, rows := Looped(cfg, slack, db, env), Swept(db, env).rows;
            Books(cfg, env, db, rows, s) && (s.Stopped() || |s.outcomes| == |env.batch|)
  {
    FitsBatch(cfg, db, env);
    assert Opening(cfg, db, env).db.logs == db.logs;
    LoopBooks(cfg, slack, env, db, Swept(db, env).rows, Opening(cfg, db, env));
  }

  // --------------------------------------------------------------------- main results

  /** The last row the run took ended it: an exception, or the fifth refusal in a row. */
  predicate StoppedByRow(cfg: Config, env: Setting, rows: map<RowId, Row>, outcomes: seq<Outcome>)
    requires Present(rows, env.batch) && |outcomes| <= |env.batch|
  {
    var n := |outcomes|;
    n > 0 && (!outcomes[n - 1].Returned? || (n >= 5 && FiveRefused(cfg, env, rows, outcomes, n - 5)))
  }

  /** Why a run that was not over its limit stopped after the n rows it took. */
  function StopAfter(cfg: Config, env: Setting, db: Db, rows: map<RowId, Row>,
          outcomes: seq<Outcome>): Option<StopReason>
    requires Present(rows, env.batch) && |outcomes| <= |env.batch|
  {
    var n := |outcomes|;
    if StoppedByRow(cfg, env, rows, outcomes) then
      match outcomes[n - 1]
      case RaisedHalt(reason) => Some(AccountPaused(reason))
      case RaisedThrottle(_, reason) => Some(SesThrottled(reason))
      case Returned(_) => Some(TransportFailures)
    else if n < |env.batch| then HeadStop(cfg, env, db, rows, n)
    else None
  }

  /** A run that takes its rows to these outcomes stops here, so, and dies exactly like this. */
  ghost predicate StopsRight(cfg: Config, env: Setting, db: Db, rows: map<RowId, Row>, outcomes: seq<Outcome>,
                             stopped: Option<StopReason>, crashed: bool)
    requires Present(rows, env.batch) && |outcomes| <= |env.batch|
  {
    var n := |outcomes|;
    && (forall k | 0 <= k < n :: outcomes[k] == StepOf(cfg, env, rows, k).outcome)
    && (forall k | 0 <= k < n :: GoesOn(cfg, env, db, rows, k) && !env.turn(k).fault)
    && stopped == StopAfter(cfg, env, db, rows, outcomes)
    && (crashed <==>
        && n < |env.batch| && !StoppedByRow(cfg, env, rows, outcomes)
        && GoesOn(cfg, env, db, rows, n) && env.turn(n).fault)
    && (n < |env.batch| ==> stopped.Some? || crashed)
  }

  /** The last row stopped the loop, or the head of a turn did, or nothing has. */
  predicate RowStopped(stopped: Option<StopReason>) {
    stopped.Some? && (stopped.value.AccountPaused? || stopped.value.SesThrottled? || stopped.value.TransportFailures?)
  }

  lemma RowStops(cfg: Config, env: Setting, db: Db, rows: map<RowId, Row>, s: Loop)
    requires Present(rows, env.batch) && StandsRight(cfg, env, db, rows, s)
    requires StopsAtFive(cfg, env, rows, s.outcomes, s.summary)
    ensures StoppedByRow(cfg, env, rows, s.outcomes) <==> RowStopped(s.summary.stopped)
    ensures RowStopped(s.summary.stopped) ==> s.summary.stopped == StopAfter(cfg, env, db, rows, s.outcomes)
  {
    var n := |s.outcomes|;
    if n >= 5 && FiveRefused(cfg, env, rows, s.outcomes, n - 5) {
      assert RefusedAt(cfg, env, rows, s.outcomes, n - 1);
    }
  }

  lemma HeadStops(cfg: Config, env: Setting, db: Db, rows: map<RowId, Row>, n: nat)
    requires Present(rows, env.batch) && n <= |env.batch|
    ensures GoesOn(cfg, env, db, rows, n) <==> HeadStop(cfg, env, db, rows, n).None?
  {
  }

  lemma LoopStops(cfg: Config, env: Setting, db: Db, rows: map<RowId, Row>, s: Loop)
    requires Present(rows, env.batch) && StandsRight(cfg, env, db, rows, s)
    requires StopsAtFive(cfg, env, rows, s.outcomes, s.summary) && (s.Stopped() || |s.outcomes| == |env.batch|)
    requires forall k | 0 <= k < |s.outcomes| :: s.outcomes[k] == StepOf(cfg, env, rows, k).outcome
    ensures StopsRight(cfg, env, db, rows, s.outcomes, s.summary.stopped, s.crashed)
  {
    RowStops(cfg, env, db, rows, s);
    HeadStops(cfg, env, db, rows, |s.outcomes|);
    if !RowStopped(s.summary.stopped) { StandsStop(cfg, env, db, rows, s); }
  }

  lemma StandsStop(cfg: Config, env: Setting, db: Db, rows: map<RowId, Row>, s: Loop)
    requires Present(rows, env.batch) && StandsRight(cfg, env, db, rows, s)
    requires (s.Stopped() || |s.outcomes| == |env.batch|) && !RowStopped(s.summary.stopped)
    ensures var n := |s.outcomes|;
            && s.summary.stopped == (if n < |env.batch| then HeadStop(cfg, env, db, rows, n) else None)
            && (s.crashed <==> n < |env.batch| && GoesOn(cfg, env, db, rows, n) && env.turn(n).fault)
  {
    HeadStops(cfg, env, db, rows, |s.outcomes|);
  }

  lemma OutcomesOfSteps(cfg: Config, env: Setting, rows: map<RowId, Row>, s: Loop)
    requires Present(rows, env.batch) && Progress(env, rows, Steps(cfg, env, rows), s)
    ensures |s.outcomes| <= |env.batch|
    ensures forall k | 0 <= k < |s.outcomes| :: s.outcomes[k] == StepOf(cfg, env, rows, k).outcome
  {
    assert forall k | 0 <= k < |s.outcomes| :: s.outcomes[k] == Steps(cfg, env, rows)[k].outcome;
  }

  lemma LoopedStops(cfg: Config, slack: Slack.SlackConfig, db: Db, env: Setting)
    requires Fits(cfg, db, env) && !OverLimit(cfg, db, env)
    ensures Present(Swept(db, env).rows, env.batch) && Present(db.rows, env.batch)
    ensures var s := Looped(cfg, slack, db, env);
            && |s.outcomes| <= |env.batch|
            && StopsRight(cfg, env, db, Swept(db, env).rows, s.outcomes, s.summary.stopped, s.crashed)
  {
    LoopedBooks(cfg, slack, db, env);
    LoopedStopsAtFive(cfg, slack, db, env);
    var s, rows := Looped(cfg, slack, db, env), Swept(db, env).rows;
    OutcomesOfSteps(cfg, env, rows, s);
    LoopStops(cfg, env, db, rows, s);
  }

  /** How far a run gets and why it stops, from what it meets: each row it took came at a turn with
      no SIGTERM pending, in time and under the limit; it reports the stop its last row or the next
      turn calls for, the first that applies; and it dies exactly at a turn that goes on to a row
      whose failure escapes. A run over its limit at the start takes nothing and says so. */
  lemma StopsExactly(cfg: Config, slack: Slack.SlackConfig, db: Db, env: Setting)
    requires Fits(cfg, db, env)
    ensures Present(Swept(db, env).rows, env.batch) && Present(db.rows, env.batch)
    ensures var r := Drain(cfg, slack, db, env);
            && |r.outcomes| <= |env.batch|
            && if CountFrom(db.logs, IsEmailSent, env.now - 24 * HOUR) >= cfg.dailyLimit
               then env.batch == [] && r.summary.stopped == Some(DailyLimit) && !r.crashed
               else StopsRight(cfg, env, db, Swept(db, env).rows, r.outcomes, r.summary.stopped, r.crashed)
  {
    LimitTest(cfg, db, env);
    if OverLimit(cfg, db, env) {
      OverLimitStops(cfg, slack, db, env);
    } else {
      UnderLimitStops(cfg, slack, db, env);
    }
  }

  lemma LimitTest(cfg: Config, db: Db, env: Setting)
    ensures OverLimit(cfg, db, env) <==> CountFrom(db.logs, IsEmailSent, env.now - 24 * HOUR) >= cfg.dailyLimit
  {
  }

  lemma OverLimitStops(cfg: Config, slack: Slack.SlackConfig, db: Db, env: Setting)
    requires Fits(cfg, db, env) && OverLimit(cfg, db, env)
    ensures env.batch == [] && Present(Swept(db, env).rows, env.batch) && Present(db.rows, env.batch)
    ensures var r := Drain(cfg, slack, db, env);
            r.outcomes == [] && r.summary.stopped == Some(DailyLimit) && !r.crashed
  {
    assert Looped(cfg, slack, db, env) == Opening(cfg, db, env);
    ClosingRows(cfg, slack, env, Opening(cfg, db, env));
  }

  lemma UnderLimitStops(cfg: Config, slack: Slack.SlackConfig, db: Db, env: Setting)
    requires Fits(cfg, db, env) && !OverLimit(cfg, db, env)
    ensures Present(Swept(db, env).rows, env.batch) && Present(db.rows, env.batch)
    ensures var r := Drain(cfg, slack, db, env);
            && |r.outcomes| <= |env.batch|
            && StopsRight(cfg, env, db, Swept(db, env).rows, r.outcomes, r.summary.stopped, r.crashed)
  {
    LoopedStops(cfg, slack, db, env);
    ClosingRows(cfg, slack, env, Looped(cfg, slack, db, env));
  }

  /** Whom a run alerts: one notice for an account halt or the fifth refusal, and one at the end of
      a run that did not die for templates that left rows blocked or aged out; nothing else. */
  lemma AlertsExactly(cfg: Config, slack: Slack.SlackConfig, db: Db, env: Setting)
    requires Fits(cfg, db, env) && !OverLimit(cfg, db, env)
    ensures Present(Swept(db, env).rows, env.batch) && Present(db.rows, env.batch)
    ensures var r, rows := Drain(cfg, slack, db, env), Swept(db, env).rows;
            && |r.outcomes| <= |env.batch|
            && Notices(r.db.logs) ==
               Notices(db.logs) + (if AlertedBy(env, r.outcomes, r.summary.stopped) then 1 else 0) +
               if !r.crashed && Troubled(Steps(cfg, env, rows), |r.outcomes|) && env.renderAlert.Logged? then 1 else 0
  {
    LoopedBooks(cfg, slack, db, env);
    var s := Looped(cfg, slack, db, env);
    ClosingRows(cfg, slack, env, s);
    AlertCounts(slack, s.db, env.renderAlert);
    ClosingLogs(cfg, slack, env, s);
  }

  lemma ClosingLogs(cfg: Config, slack: Slack.SlackConfig, env: Setting, s: Loop)
    ensures Closing(cfg, slack, env, s).db.logs ==
            if !s.crashed && s.renderKeys != {} then PostAlert(slack, s.db, env.renderAlert).logs else s.db.logs
  {
  }

  // ------------------------------------------------------------------------- the prune

  /** The row has ended, in any of the four ways, and was created before the retention began. */
  predicate Expired(cfg: Config, row: Row, now: Time) {
    && (row.status == Sent || row.status == Failed || row.status == Cancelled || row.status == Suppressed)
    && row.createdAt < now - cfg.retention
  }

  /** The rows a run has when it has released its claims: those it took as their steps left them,
      the others as the sweep did. */
  ghost predicate Leaves(cfg: Config, env: Setting, rows: map<RowId, Row>, n: nat, released: map<RowId, Row>)
    requires Present(rows, env.batch) && n <= |env.batch|
  {
    && released.Keys == rows.Keys
    && (forall id | id in rows && id !in env.batch :: released[id] == rows[id])
    && (forall k | 0 <= k < |env.batch| ::
          released[env.batch[k]] == if k < n then StepOf(cfg, env, rows, k).row else rows[env.batch[k]])
  }

  lemma RunLeaves(cfg: Config, slack: Slack.SlackConfig, db: Db, env: Setting)
    requires Fits(cfg, db, env) && forall id | id in db.rows :: Restorable(db.rows[id])
    ensures Present(Swept(db, env).rows, env.batch) && Present(db.rows, env.batch)
    ensures var s := Looped(cfg, slack, db, env);
            && |s.outcomes| <= |env.batch|
            && Leaves(cfg, env, Swept(db, env).rows, |s.outcomes|, Release(s.db, env.run).rows)
  {
    FitsBatch(cfg, db, env);
    SweptRows(db, env);
    var rows := Swept(db, env).rows;
    var steps := Steps(cfg, env, rows);
    LoopProgress(cfg, slack, env, rows, Opening(cfg, db, env));
    var s := Looped(cfg, slack, db, env);
    forall k | 0 <= k < |env.batch|
      ensures steps[k].row.status != Sending
      ensures Released(Claimed(rows[env.batch[k]], env.run, env.now)) == rows[env.batch[k]]
    {
      var row := rows[env.batch[k]];
      ProcessedNotSending(cfg, Claimed(row, env.run, env.now), env.turn(k).x);
      assert Due(row, env.now);
      ReleasedIsUntouched(row, env.run, env.now);
    }
    ReleaseReached(env, rows, steps, |s.outcomes|, s.db);
  }

  /** And the rows that are left of them: all, or all but the expired ones. */
  ghost predicate Pruned(cfg: Config, now: Time, released: map<RowId, Row>, r: Result) {
    && (forall id :: id in r.db.rows <==> id in released && (r.crashed || !Expired(cfg, released[id], now)))
    && (forall id | id in r.db.rows :: r.db.rows[id] == released[id])
    && (!r.crashed ==> r.summary.pruned == |released.Keys - r.db.rows.Keys|)
  }

  /** What a run's prune takes: exactly the rows that are so when the run has released its claims,
      unless the run died, which prunes nothing; and the summary counts them. */
  lemma PruneExactly(cfg: Config, slack: Slack.SlackConfig, db: Db, env: Setting)
    requires Fits(cfg, db, env) && forall id | id in db.rows :: Restorable(db.rows[id])
    ensures Present(Swept(db, env).rows, env.batch) && Present(db.rows, env.batch)
    ensures var r := Drain(cfg, slack, db, env);
            && |r.outcomes| <= |env.batch|
            && exists released ::
                 Leaves(cfg, env, Swept(db, env).rows, |r.outcomes|, released) && Pruned(cfg, env.now, released, r)
  {
    RunLeaves(cfg, slack, db, env);
    ClosingLeaves(cfg, slack, env, Looped(cfg, slack, db, env));
  }

  lemma ClosingLeaves(cfg: Config, slack: Slack.SlackConfig, env: Setting, s: Loop)
    ensures var r := Closing(cfg, slack, env, s);
            r.outcomes == s.outcomes && Pruned(cfg, env.now, Release(s.db, env.run).rows, r)
  {
    ClosingRows(cfg, slack, env, s);
    ClosingPrunes(cfg, slack, env, s, Release(s.db, env.run).rows);
  }

  lemma ClosingPrunes(cfg: Config, slack: Slack.SlackConfig, env: Setting, s: Loop, released: map<RowId, Row>)
    requires released == Release(s.db, env.run).rows
    ensures var r := Closing(cfg, slack, env, s);
            && (forall id :: id in r.db.rows <==> id in released && (s.crashed || !Expired(cfg, released[id], env.now)))
            && (!s.crashed ==> r.summary.pruned == |released.Keys - r.db.rows.Keys|)
  {
    var alerted := if !s.crashed && s.renderKeys != {} then PostAlert(slack, s.db, env.renderAlert) else s.db;
    assert Release(alerted, env.run).rows == released;
    if !s.crashed { PruneTakes(cfg, Release(alerted, env.run), env.now); }
  }

  lemma PruneTakes(cfg: Config, db: Db, now: Time)
    ensures forall id :: id in Prune(cfg, db, now).rows <==> id in db.rows && !Expired(cfg, db.rows[id], now)
  {
  }
}
