/** What every run of drain_outbox guarantees: the fate of each claimed row, and the failure
    streak that stops a run. */
module DrainFacts {
  import opened Basics
  import opened Templates
  import opened Outbox
  import opened DrainRun
  import Slack

  // ------------------------------------------------------------- the steps of a run

  /** The step of the k-th claimed row, if it is reached. `rows` is the table before the claim. */
  function StepOf(cfg: Config, env: Setting, rows: map<RowId, Row>, k: nat): Effect
    requires k < |env.batch| && env.batch[k] in rows
  {
    Process(cfg, Claimed(rows[env.batch[k]], env.run, env.now), env.turn(k).x)
  }

  function Steps(cfg: Config, env: Setting, rows: map<RowId, Row>): seq<Effect>
    requires Present(rows, env.batch)
  {
    seq(|env.batch|, k requires 0 <= k < |env.batch| => StepOf(cfg, env, rows, k))
  }

  predicate Distinct(batch: seq<RowId>) { forall i, j | 0 <= i < j < |batch| :: batch[i] != batch[j] }

  lemma FitsBatch(cfg: Config, db: Db, env: Setting)
    requires Fits(cfg, db, env)
    ensures Present(db.rows, env.batch) && Distinct(env.batch)
  {
    forall i, j | 0 <= i < j < |env.batch|
      ensures env.batch[i] != env.batch[j]
    {
      assert Before(Swept(db, env).rows, env.batch[i], env.batch[j]);
    }
  }

  /** One turn either stops before its row or takes the row's step. */
  lemma AdvanceTakes(cfg: Config, slack: Slack.SlackConfig, env: Setting, s: Loop, e: Effect)
    requires |s.outcomes| < |env.batch| && env.batch[|s.outcomes|] in s.db.rows
    requires e == Process(cfg, s.db.rows[env.batch[|s.outcomes|]], env.turn(|s.outcomes|).x)
    ensures var s' := Advance(cfg, slack, env, s);
            || (s'.db == s.db && s'.outcomes == s.outcomes && s'.streak == s.streak && s'.Stopped()
                && s'.summary == s.summary.(stopped := s'.summary.stopped)
                && s'.summary.stopped != Some(TransportFailures))
            || (s'.db.rows == s.db.rows[env.batch[|s.outcomes|] := e.row]
                && s'.outcomes == s.outcomes + [e.outcome] && s'.crashed == s.crashed && Booked(s, s', e))
    requires !s.Stopped()
  {
  }

  /** How a turn that took step e changes the loop's counters. */
  predicate Booked(s: Loop, s': Loop, e: Effect) {
    match e.outcome
    case Returned(status) =>
      var failed := LooksLikeTransportFailure(status, e.row);
      var streak := if failed then s.streak + 1 else 0;
      && s'.streak == streak
      && s'.summary == Tallied(s.summary, status).(
           stopped := if streak >= FAILURE_LIMIT then Some(TransportFailures) else s.summary.stopped)
    case _ =>
      && s'.streak == s.streak
      && s'.summary.stopped.Some? && s'.summary.stopped != Some(TransportFailures)
      && s'.summary == s.summary.(stopped := s'.summary.stopped)
  }

  // ------------------------------------------------------------------- partition

  function Raised(outcomes: seq<Outcome>): nat {
    if outcomes == [] then 0
    else Raised(outcomes[..|outcomes| - 1]) + if outcomes[|outcomes| - 1].Returned? then 0 else 1
  }

  predicate Counted(m: Summary, outcomes: seq<Outcome>) {
    && m.sent == CountOf(outcomes, Returned(Sent))
    && m.failed == CountOf(outcomes, Returned(Failed))
    && m.suppressed == CountOf(outcomes, Returned(Suppressed))
    && m.cancelled == CountOf(outcomes, Returned(Cancelled))
    && m.renderBlocked == CountOf(outcomes, Returned(RenderBlocked))
  }

  lemma CountAppend(outcomes: seq<Outcome>, e: Outcome, o: Outcome)
    ensures CountOf(outcomes + [e], o) == CountOf(outcomes, o) + if e == o then 1 else 0
  {
    assert (outcomes + [e])[..|outcomes|] == outcomes;
  }

  lemma CountedAppend(m: Summary, outcomes: seq<Outcome>, e: Outcome)
    requires Counted(m, outcomes)
    ensures Counted(if e.Returned? then Tallied(m, e.status) else m, outcomes + [e])
  {
    CountAppend(outcomes, e, Returned(Sent));
    CountAppend(outcomes, e, Returned(Failed));
    CountAppend(outcomes, e, Returned(Suppressed));
    CountAppend(outcomes, e, Returned(Cancelled));
    CountAppend(outcomes, e, Returned(RenderBlocked));
  }

  /** The first n rows of the batch have taken their steps, the rest are claimed, and no other
      row has changed since the table was `rows`. */
  ghost predicate Reached(env: Setting, rows: map<RowId, Row>, steps: seq<Effect>, n: nat, now: map<RowId, Row>)
    requires Present(rows, env.batch) && |steps| == |env.batch|
  {
    && now.Keys == rows.Keys
    && (forall id | id in rows && id !in env.batch :: now[id] == rows[id])
    && (forall k | 0 <= k < |env.batch| ::
          now[env.batch[k]] == if k < n then steps[k].row else Claimed(rows[env.batch[k]], env.run, env.now))
  }

  lemma ReachedStep(env: Setting, rows: map<RowId, Row>, steps: seq<Effect>, n: nat, now: map<RowId, Row>)
    requires Present(rows, env.batch) && |steps| == |env.batch| && Distinct(env.batch) && n < |env.batch|
    requires Reached(env, rows, steps, n, now)
    ensures Reached(env, rows, steps, n + 1, now[env.batch[n] := steps[n].row])
  {
  }

  /** The outcomes so far are those of the steps taken; only the last may have been raised. */
  predicate Follows(outcomes: seq<Outcome>, steps: seq<Effect>, stopped: bool) {
    && |outcomes| <= |steps|
    && (forall k | 0 <= k < |outcomes| :: outcomes[k] == steps[k].outcome)
    && (forall k | 0 <= k < |outcomes| && !outcomes[k].Returned? :: k == |outcomes| - 1 && stopped)
  }

  ghost predicate Progress(env: Setting, rows: map<RowId, Row>, steps: seq<Effect>, s: Loop)
    requires Present(rows, env.batch) && |steps| == |env.batch|
  {
    && Reached(env, rows, steps, |s.outcomes|, s.db.rows)
    && Follows(s.outcomes, steps, s.Stopped())
    && Counted(s.summary, s.outcomes)
  }

  lemma ProgressCarried(env: Setting, rows: map<RowId, Row>, steps: seq<Effect>, s: Loop, s': Loop)
    requires Present(rows, env.batch) && |steps| == |env.batch| && Distinct(env.batch)
    requires Progress(env, rows, steps, s) && !s.Stopped() && |s.outcomes| < |env.batch|
    requires var e := steps[|s.outcomes|];
             && s'.db.rows == s.db.rows[env.batch[|s.outcomes|] := e.row]
             && s'.outcomes == s.outcomes + [e.outcome] && Booked(s, s', e)
    ensures Progress(env, rows, steps, s')
  {
    var e := steps[|s.outcomes|];
    ReachedStep(env, rows, steps, |s.outcomes|, s.db.rows);
    CountedAppend(s.summary, s.outcomes, e.outcome);
    assert Counted(s'.summary, s'.outcomes);
    FollowsStep(s.outcomes, steps, s'.Stopped());
  }

  lemma FollowsStep(outcomes: seq<Outcome>, steps: seq<Effect>, stopped: bool)
    requires |outcomes| < |steps| && Follows(outcomes, steps, false)
    requires steps[|outcomes|].outcome.Returned? || stopped
    ensures Follows(outcomes + [steps[|outcomes|].outcome], steps, stopped)
  {
  }

  lemma ProgressStep(cfg: Config, slack: Slack.SlackConfig, env: Setting, rows: map<RowId, Row>, s: Loop)
    requires Present(rows, env.batch) && Distinct(env.batch)
    requires Progress(env, rows, Steps(cfg, env, rows), s) && !s.Stopped() && |s.outcomes| < |env.batch|
    ensures Progress(env, rows, Steps(cfg, env, rows), Advance(cfg, slack, env, s))
  {
    var steps := Steps(cfg, env, rows);
    AdvanceTakes(cfg, slack, env, s, steps[|s.outcomes|]);
    var s' := Advance(cfg, slack, env, s);
    if s'.outcomes != s.outcomes { ProgressCarried(env, rows, steps, s, s'); }
  }

  lemma {:induction false} LoopProgress(cfg: Config, slack: Slack.SlackConfig, env: Setting, rows: map<RowId, Row>,
          s: Loop)
    requires Present(rows, env.batch) && Distinct(env.batch)
    requires Progress(env, rows, Steps(cfg, env, rows), s)
    ensures Present(s.db.rows, env.batch)
    ensures var s' := RunLoop(cfg, slack, env, s);
            Progress(env, rows, Steps(cfg, env, rows), s') && (s'.Stopped() || |s'.outcomes| == |env.batch|)
    decreases |env.batch| - |s.outcomes|, if s.Stopped() then 0 else 1
  {
    if !s.Stopped() && |s.outcomes| < |env.batch| {
      ProgressStep(cfg, slack, env, rows, s);
      AdvanceGrows(cfg, slack, env, s);
      LoopProgress(cfg, slack, env, rows, Advance(cfg, slack, env, s));
    }
  }

  /** A turn takes a step or stops the run. */
  lemma AdvanceGrows(cfg: Config, slack: Slack.SlackConfig, env: Setting, s: Loop)
    requires |s.outcomes| < |env.batch| && env.batch[|s.outcomes|] in s.db.rows && !s.Stopped()
    ensures var s' := Advance(cfg, slack, env, s);
            |s'.outcomes| == |s.outcomes| + 1 || (s'.outcomes == s.outcomes && s'.Stopped())
  {
    AdvanceTakes(cfg, slack, env, s, Process(cfg, s.db.rows[env.batch[|s.outcomes|]], env.turn(|s.outcomes|).x));
  }

  // ------------------------------------------------------- each row has one fate

  lemma ProcessedNotSending(cfg: Config, row: Row, x: Inputs)
    ensures Process(cfg, row, x).row.status != Sending
    ensures TellsStatus(Process(cfg, row, x))
  {
    if Renders(row, x) && x.ses.Rejected? {
      var e := Refused(cfg, row.(blockedSince := None), x);
      assert e.row.status != Sending && TellsStatus(e);
    }
  }

  /** Rows a run can claim have no claim, and a block exactly when they are RENDER_BLOCKED;
      module Guarantees shows this of every reachable table. */
  predicate Restorable(row: Row) {
    row.status.Claimable() ==>
      && row.claimedAt.None? && row.claimedBy.None?
      && (row.status == RenderBlocked <==> row.blockedSince.Some?)
  }

  lemma ReleasedIsUntouched(row: Row, run: RunId, now: Time)
    requires row.status.Claimable() && Restorable(row)
    ensures Released(Claimed(row, run, now)) == row
  {
  }

  /** The table before the claim, as the sweep of stale claims leaves it. */
  lemma SweptRows(db: Db, env: Setting)
    requires forall id | id in db.rows :: Restorable(db.rows[id]) && db.rows[id].claimedBy != Some(env.run)
    ensures Swept(db, env).rows.Keys == db.rows.Keys
    ensures forall id | id in db.rows ::
              Restorable(Swept(db, env).rows[id]) && Swept(db, env).rows[id].claimedBy != Some(env.run)
  {
  }

  /** Releasing a loop's tables. */
  lemma ReleaseReached(env: Setting, rows: map<RowId, Row>, steps: seq<Effect>, n: nat, db: Db)
    requires Present(rows, env.batch) && |steps| == |env.batch| && n <= |env.batch|
    requires Reached(env, rows, steps, n, db.rows)
    requires forall id | id in rows :: rows[id].claimedBy != Some(env.run)
    requires forall k | 0 <= k < |env.batch| ::
               && steps[k].row.status != Sending
               && Released(Claimed(rows[env.batch[k]], env.run, env.now)) == rows[env.batch[k]]
    ensures var rows' := Release(db, env.run).rows;
            && rows'.Keys == rows.Keys
            && (forall id | id in rows && id !in env.batch :: rows'[id] == rows[id])
            && (forall k | 0 <= k < |env.batch| ::
                  rows'[env.batch[k]] == if k < n then steps[k].row else rows[env.batch[k]])
            && (forall id | id in rows :: !HeldBy(rows'[id], env.run))
  {
    forall k | 0 <= k < |env.batch|
      ensures Release(db, env.run).rows[env.batch[k]] == if k < n then steps[k].row else rows[env.batch[k]]
    {
      assert env.batch[k] in rows;
    }
    forall id | id in rows
      ensures !HeldBy(Release(db, env.run).rows[id], env.run)
    {
      if id in env.batch {
        var k :| 0 <= k < |env.batch| && env.batch[k] == id;
      }
    }
  }

  /** After a run, each claimed row was either processed, and is as its own step left it, or was
      not reached, and is exactly as it was before the claim. No row is held by the run, no other
      row has changed since the sweep, and only the prune has removed any. */
  lemma EachRowHasOneFate(cfg: Config, slack: Slack.SlackConfig, db: Db, env: Setting)
    requires Fits(cfg, db, env) && forall id | id in db.rows :: Restorable(db.rows[id])
    ensures Present(db.rows, env.batch)
    ensures var rows, r := Swept(db, env).rows, Drain(cfg, slack, db, env);
            && |r.outcomes| <= |env.batch|
            && (forall k | 0 <= k < |env.batch| && env.batch[k] in r.db.rows ::
                  r.db.rows[env.batch[k]] ==
                  if k < |r.outcomes| then StepOf(cfg, env, rows, k).row else rows[env.batch[k]])
            && (forall id | id in rows && id !in env.batch && id in r.db.rows :: r.db.rows[id] == rows[id])
            && (forall id | id in r.db.rows :: id in rows && !HeldBy(r.db.rows[id], env.run))
            && (forall id | id in rows && id !in r.db.rows :: !r.crashed)
  {
    FitsBatch(cfg, db, env);
    SweptRows(db, env);
    var rows := Swept(db, env).rows;
    var steps := Steps(cfg, env, rows);
    LoopProgress(cfg, slack, env, rows, Opening(cfg, db, env));
    var s := Looped(cfg, slack, db, env);
    forall k | 0 <= k < |env.batch|
      ensures steps[k].row.status != Sending
      ensures Released(Claimed(rows[env.batch[k]], env.run, env.now)) == rows[env.batch[k]]
    {
      var row := rows[env.batch[k]];
      ProcessedNotSending(cfg, Claimed(row, env.run, env.now), env.turn(k).x);
      assert Due(row, env.now);
      ReleasedIsUntouched(row, env.run, env.now);
    }
    ReleaseReached(env, rows, steps, |s.outcomes|, s.db);
    ClosingRows(cfg, slack, env, s);
  }

  /** The close releases the run's claims and, unless the run crashed, prunes. */
  lemma ClosingRows(cfg: Config, slack: Slack.SlackConfig, env: Setting, s: Loop)
    ensures var r, released := Closing(cfg, slack, env, s), Release(s.db, env.run).rows;
            && (forall id | id in r.db.rows :: id in released && r.db.rows[id] == released[id])
            && (r.crashed ==> r.db.rows == released)
            && r.outcomes == s.outcomes && r.crashed == s.crashed
            && r.summary == s.summary.(pruned := r.summary.pruned)
  {
  }

  /** The classes of a batch add up: every claimed row is counted in one summary field, requeued
      with backoff, the one row whose failure ended the run, or was not reached. */
  predicate AddsUp(env: Setting, m: Summary, outcomes: seq<Outcome>, crashed: bool) {
    && Counted(m, outcomes)
    && |outcomes| <= |env.batch| == m.claimed
    && m.claimed == m.sent + m.failed + m.suppressed + m.cancelled + m.renderBlocked
                    + CountOf(outcomes, Returned(Queued)) + Raised(outcomes) + (|env.batch| - |outcomes|)
    && (|outcomes| < |env.batch| || Raised(outcomes) > 0 ==> m.stopped.Some? || crashed)
    && Raised(outcomes) == if outcomes != [] && !outcomes[|outcomes| - 1].Returned? then 1 else 0
  }

  lemma LoopAddsUp(env: Setting, steps: seq<Effect>, s: Loop)
    requires |steps| == |env.batch| == s.summary.claimed
    requires Follows(s.outcomes, steps, s.Stopped()) && Counted(s.summary, s.outcomes)
    requires s.Stopped() || |s.outcomes| == |env.batch|
    requires forall k | 0 <= k < |steps| :: steps[k].outcome.Returned? ==> steps[k].outcome.status != Sending
    ensures AddsUp(env, s.summary, s.outcomes, s.crashed)
  {
    OutcomesPartition(s.outcomes);
    RaisedLast(s.outcomes);
  }

  lemma StepsNotSending(cfg: Config, env: Setting, rows: map<RowId, Row>)
    requires Present(rows, env.batch)
    ensures var steps := Steps(cfg, env, rows);
            forall k | 0 <= k < |steps| :: steps[k].outcome.Returned? ==> steps[k].outcome.status != Sending
  {
    forall k | 0 <= k < |env.batch|
      ensures var o := Steps(cfg, env, rows)[k].outcome; o.Returned? ==> o.status != Sending
    {
      ProcessedNotSending(cfg, Claimed(rows[env.batch[k]], env.run, env.now), env.turn(k).x);
    }
  }

  lemma BatchAddsUp(cfg: Config, slack: Slack.SlackConfig, db: Db, env: Setting)
    requires Fits(cfg, db, env)
    ensures Present(db.rows, env.batch)
    ensures var r := Drain(cfg, slack, db, env); AddsUp(env, r.summary, r.outcomes, r.crashed)
  {
    FitsBatch(cfg, db, env);
    LoopedAddsUp(cfg, slack, db, env);
    ClosingRows(cfg, slack, env, Looped(cfg, slack, db, env));
  }

  lemma LoopedAddsUp(cfg: Config, slack: Slack.SlackConfig, db: Db, env: Setting)
    requires Present(db.rows, env.batch) && Distinct(env.batch)
    ensures var s := Looped(cfg, slack, db, env); AddsUp(env, s.summary, s.outcomes, s.crashed)
  {
    var rows := Swept(db, env).rows;
    LoopProgress(cfg, slack, env, rows, Opening(cfg, db, env));
    ClaimedStays(cfg, slack, env, Opening(cfg, db, env));
    StepsNotSending(cfg, env, rows);
    LoopAddsUp(env, Steps(cfg, env, rows), Looped(cfg, slack, db, env));
  }

  lemma {:induction false} ClaimedStays(cfg: Config, slack: Slack.SlackConfig, env: Setting, s: Loop)
    requires |s.outcomes| <= |env.batch| && Present(s.db.rows, env.batch)
    ensures RunLoop(cfg, slack, env, s).summary.claimed == s.summary.claimed
    decreases |env.batch| - |s.outcomes|, if s.Stopped() then 0 else 1
  {
    if !s.Stopped() && |s.outcomes| < |env.batch| {
      AdvanceKeepsRows(cfg, slack, env, s);
      var e := Process(cfg, s.db.rows[env.batch[|s.outcomes|]], env.turn(|s.outcomes|).x);
      AdvanceTakes(cfg, slack, env, s, e);
      ClaimedStays(cfg, slack, env, Advance(cfg, slack, env, s));
    }
  }

  lemma {:induction false} OutcomesPartition(outcomes: seq<Outcome>)
    requires forall k | 0 <= k < |outcomes| :: outcomes[k].Returned? ==> outcomes[k].status != Sending
    ensures |outcomes| ==
            CountOf(outcomes, Returned(Sent)) + CountOf(outcomes, Returned(Failed))
            + CountOf(outcomes, Returned(Suppressed))
            + CountOf(outcomes, Returned(Cancelled)) + CountOf(outcomes, Returned(RenderBlocked))
            + CountOf(outcomes, Returned(Queued)) + Raised(outcomes)
  {
    if outcomes != [] { OutcomesPartition(outcomes[..|outcomes| - 1]); }
  }

  lemma {:induction false} RaisedLast(outcomes: seq<Outcome>)
    requires forall k | 0 <= k < |outcomes| && !outcomes[k].Returned? :: k == |outcomes| - 1
    ensures Raised(outcomes) == if outcomes != [] && !outcomes[|outcomes| - 1].Returned? then 1 else 0
  {
    if outcomes != [] { RaisedLast(outcomes[..|outcomes| - 1]); }
  }

  /** Of the first n steps, those that left their row FAILED. */
  function LeftFailed(steps: seq<Effect>, n: nat): nat
    requires n <= |steps|
  {
    if n == 0 then 0 else LeftFailed(steps, n - 1) + if steps[n - 1].row.status == Failed then 1 else 0
  }

  lemma {:induction false} FailedCounts(steps: seq<Effect>, outcomes: seq<Outcome>)
    requires |outcomes| <= |steps| && forall k | 0 <= k < |outcomes| :: outcomes[k] == steps[k].outcome
    requires forall e | e in steps :: TellsStatus(e)
    requires forall k | 0 <= k < |outcomes| && !outcomes[k].Returned? :: k == |outcomes| - 1
    ensures LeftFailed(steps, |outcomes|) ==
            CountOf(outcomes, Returned(Failed)) + if EndsUncounted(outcomes) then 1 else 0
  {
    if outcomes != [] {
      var past := outcomes[..|outcomes| - 1];
      FailedCounts(steps, past);
      assert !EndsUncounted(past);
      assert TellsStatus(steps[|past|]);
    }
  }

  /** The row's last attempt is spent on an account-wide throttle. */
  predicate ThrottledOut(cfg: Config, row: Row, x: Inputs) {
    FailsTransiently(row, x) && Classify(x.ses.code) == TransientAccount && row.attempts + 1 >= cfg.maxAttempts
  }

  /** That is when process_row leaves the row FAILED and raises. */
  lemma ThrottledOutExact(cfg: Config, row: Row, x: Inputs)
    ensures var e := Process(cfg, row, x);
            ThrottledOut(cfg, row, x) <==> e.row.status == Failed && !e.outcome.Returned?
  {
  }

  predicate EndsUncounted(outcomes: seq<Outcome>) {
    outcomes != [] && var last := outcomes[|outcomes| - 1]; last.RaisedThrottle? && last.status == Failed
  }

  /** The summary counts every row the run left FAILED but one: the last row it reached, exactly
      when that row's last attempt was throttled, because the exception skips the count. */
  lemma FailuresReported(cfg: Config, slack: Slack.SlackConfig, db: Db, env: Setting)
    requires Fits(cfg, db, env)
    ensures Present(Swept(db, env).rows, env.batch)
    ensures var r, rows := Drain(cfg, slack, db, env), Swept(db, env).rows;
            var n := |r.outcomes|;
            && n <= |env.batch|
            && LeftFailed(Steps(cfg, env, rows), n) ==
               r.summary.failed +
               if n > 0 && ThrottledOut(cfg, Claimed(rows[env.batch[n - 1]], env.run, env.now), env.turn(n - 1).x)
               then 1 else 0
  {
    FitsBatch(cfg, db, env);
    LoopFailures(cfg, slack, db, env);
    ClosingRows(cfg, slack, env, Looped(cfg, slack, db, env));
  }

  lemma LoopFailures(cfg: Config, slack: Slack.SlackConfig, db: Db, env: Setting)
    requires Present(db.rows, env.batch) && Distinct(env.batch)
    ensures var s, rows := Looped(cfg, slack, db, env), Swept(db, env).rows;
            var n := |s.outcomes|;
            && n <= |env.batch|
            && LeftFailed(Steps(cfg, env, rows), n) ==
               s.summary.failed +
               if n > 0 && ThrottledOut(cfg, Claimed(rows[env.batch[n - 1]], env.run, env.now), env.turn(n - 1).x)
               then 1 else 0
  {
    var rows := Swept(db, env).rows;
    LoopProgress(cfg, slack, env, rows, Opening(cfg, db, env));
    StatusesTold(cfg, env, rows);
    var s := Looped(cfg, slack, db, env);
    FailedCounts(Steps(cfg, env, rows), s.outcomes);
    LastUncounted(cfg, env, rows, s.outcomes);
  }

  lemma LastUncounted(cfg: Config, env: Setting, rows: map<RowId, Row>, outcomes: seq<Outcome>)
    requires Present(rows, env.batch) && |outcomes| <= |env.batch|
    requires forall k | 0 <= k < |outcomes| :: outcomes[k] == Steps(cfg, env, rows)[k].outcome
    ensures var n := |outcomes|;
            EndsUncounted(outcomes) <==>
            n > 0 && ThrottledOut(cfg, Claimed(rows[env.batch[n - 1]], env.run, env.now), env.turn(n - 1).x)
  {
    var n := |outcomes|;
    if n > 0 {
      ThrottledOutExact(cfg, Claimed(rows[env.batch[n - 1]], env.run, env.now), env.turn(n - 1).x);
      ProcessedNotSending(cfg, Claimed(rows[env.batch[n - 1]], env.run, env.now), env.turn(n - 1).x);
    }
  }

  // A run that fails its one row and reports no failure.

  function LastTry(cfg: Config): Row
    requires cfg.maxAttempts > 0
  {
    Row("finalized", "a@b", Some(1), None, None, None, 0, Queued, None, None, cfg.maxAttempts - 1, None, None, None,
        None, 0)
  }

  function Throttled(run: RunId): Setting {
    var x := Inputs(true, true, true, PLAIN, 0, RenderOk(Rendered("subject", "body")), false, true, 0,
                    Rejected(false, None, Some("Throttling")), 0);
    Setting(0, run, [0], 0, (i: nat) => Turn(false, 0, 0, x, false, Lost), Lost)
  }

  function LastTryDb(cfg: Config): Db
    requires cfg.maxAttempts > 0
  {
    EMPTY.(rows := map[0 := LastTry(cfg)], nextRow := 1)
  }

  /** The run's only turn ends in the throttle. */
  lemma ThrottledTurn(cfg: Config, slack: Slack.SlackConfig, run: RunId, s: Loop)
    requires cfg.Positive() && !s.Stopped() && s.outcomes == [] && s.summary.failed == 0
    requires s.db.rows == map[0 := Claimed(LastTry(cfg), run, 0)]
    ensures var s' := Advance(cfg, slack, Throttled(run), s);
            && s'.Stopped() && !s'.crashed && s'.summary.failed == 0 && s'.summary.claimed == s.summary.claimed
            && 0 in s'.db.rows && s'.db.rows[0].status == Failed && s'.db.rows[0].createdAt == 0
  {
    var x := Throttled(run).turn(0).x;
    assert Process(cfg, s.db.rows[0], x) ==
           Refused(cfg, s.db.rows[0], x);
    assert Classify(Some("Throttling")) == TransientAccount;
  }

  lemma LastTryOpens(cfg: Config, run: RunId)
    requires cfg.Positive() && cfg.dailyLimit > 0
    ensures Fits(cfg, LastTryDb(cfg), Throttled(run)) && Present(LastTryDb(cfg).rows, [0])
    ensures var s := Opening(cfg, LastTryDb(cfg), Throttled(run));
            && s.db.rows == map[0 := Claimed(LastTry(cfg), run, 0)] && s.outcomes == [] && !s.Stopped()
            && s.summary.failed == 0 && s.summary.claimed == 1
  {
    assert Swept(LastTryDb(cfg), Throttled(run)).rows == LastTryDb(cfg).rows;
  }

  lemma ClosesYoung(cfg: Config, slack: Slack.SlackConfig, env: Setting, s: Loop)
    requires !s.crashed && 0 in s.db.rows && s.db.rows[0].status == Failed
    requires s.db.rows[0].createdAt >= env.now - cfg.retention
    ensures var r := Closing(cfg, slack, env, s);
            && 0 in r.db.rows && r.db.rows[0].status == Failed
            && r.summary.failed == s.summary.failed && r.summary.claimed == s.summary.claimed
  {
  }

  /** Such a run: the only row it claims is left FAILED, and it reports no failure. */
  lemma MissedFailure(cfg: Config, slack: Slack.SlackConfig, run: RunId)
    requires cfg.Positive() && cfg.dailyLimit > 0 && cfg.retention >= 0
    ensures Fits(cfg, LastTryDb(cfg), Throttled(run)) && Present(LastTryDb(cfg).rows, [0])
    ensures var r := Drain(cfg, slack, LastTryDb(cfg), Throttled(run));
            0 in r.db.rows && r.db.rows[0].status == Failed && r.summary.failed == 0 && r.summary.claimed == 1
  {
    var env, db := Throttled(run), LastTryDb(cfg);
    LastTryOpens(cfg, run);
    ThrottledTurn(cfg, slack, run, Opening(cfg, db, env));
    ClosedAfter(cfg, slack, env, Opening(cfg, db, env));
    ClosesYoung(cfg, slack, env, Looped(cfg, slack, db, env));
  }

  /** A run that its first turn stops. */
  lemma ClosedAfter(cfg: Config, slack: Slack.SlackConfig, env: Setting, s: Loop)
    requires |env.batch| == 1 && s.outcomes == [] && !s.Stopped() && Present(s.db.rows, env.batch)
    requires Advance(cfg, slack, env, s).Stopped()
    ensures RunLoop(cfg, slack, env, s) == Advance(cfg, slack, env, s)
  {
    AdvanceKeepsRows(cfg, slack, env, s);
  }

  /** A step's outcome names the status the row is left in. */
  predicate TellsStatus(e: Effect) {
    match e.outcome
    case Returned(status) => status == e.row.status
    case RaisedThrottle(status, _) => status == e.row.status
    case RaisedHalt(_) => e.row.status == Queued
  }

  lemma StatusesTold(cfg: Config, env: Setting, rows: map<RowId, Row>)
    requires Present(rows, env.batch)
    ensures forall e | e in Steps(cfg, env, rows) :: TellsStatus(e)
  {
    forall k | 0 <= k < |env.batch|
      ensures TellsStatus(Steps(cfg, env, rows)[k])
    {
      ProcessedNotSending(cfg, Claimed(rows[env.batch[k]], env.run, env.now), env.turn(k).x);
    }
  }

  // --------------------------------------------------------------- failure streak

  /** The loop's test is exact: of the rows that do not raise, it picks those whose message SES
      was given and refused. */
  lemma TransportTestExact(cfg: Config, row: Row, x: Inputs)
    requires Process(cfg, row, x).outcome.Returned?
    ensures LooksLikeTransportFailure(Process(cfg, row, x).outcome.status, Process(cfg, row, x).row) <==>
            SesRefuses(row, x)
  {
  }

  predicate Fails(e: Effect) { e.outcome.Returned? && LooksLikeTransportFailure(e.outcome.status, e.row) }

  /** The number of failing steps that end the first n. */
  function Streak(steps: seq<Effect>, n: nat): (k: nat)
    requires n <= |steps|
    ensures k <= n && forall i | n - k <= i < n :: Fails(steps[i])
    ensures k < n ==> !Fails(steps[n - k - 1])
  {
    if n == 0 || !Fails(steps[n - 1]) then 0 else Streak(steps, n - 1) + 1
  }

  /** No five failing steps yet, unless they are the last and have stopped the run. */
  ghost predicate Watched(steps: seq<Effect>, s: Loop)
    requires |s.outcomes| <= |steps|
  {
    var n := |s.outcomes|;
    && (forall m | 0 <= m < n :: Streak(steps, m) < FAILURE_LIMIT)
    && (if s.summary.stopped == Some(TransportFailures) then Streak(steps, n) == FAILURE_LIMIT
        else Streak(steps, n) < FAILURE_LIMIT)
    && (!s.Stopped() ==> s.streak == Streak(steps, n))
  }

  lemma WatchedStep(steps: seq<Effect>, s: Loop, s': Loop)
    requires |s.outcomes| < |steps| && Watched(steps, s) && !s.Stopped()
    requires s'.outcomes == s.outcomes + [steps[|s.outcomes|].outcome] && s'.crashed == s.crashed
    requires Booked(s, s', steps[|s.outcomes|])
    ensures Watched(steps, s')
  {
  }

  lemma {:induction false} LoopWatched(cfg: Config, slack: Slack.SlackConfig, env: Setting, rows: map<RowId, Row>,
          s: Loop)
    requires Present(rows, env.batch) && Distinct(env.batch) && Present(s.db.rows, env.batch)
    requires Progress(env, rows, Steps(cfg, env, rows), s) && Watched(Steps(cfg, env, rows), s)
    ensures |RunLoop(cfg, slack, env, s).outcomes| <= |env.batch|
    ensures Watched(Steps(cfg, env, rows), RunLoop(cfg, slack, env, s))
    decreases |env.batch| - |s.outcomes|, if s.Stopped() then 0 else 1
  {
    if !s.Stopped() && |s.outcomes| < |env.batch| {
      var steps := Steps(cfg, env, rows);
      AdvanceTakes(cfg, slack, env, s, steps[|s.outcomes|]);
      var s' := Advance(cfg, slack, env, s);
      ProgressStep(cfg, slack, env, rows, s);
      if s'.outcomes != s.outcomes { WatchedStep(steps, s, s'); }
      LoopWatched(cfg, slack, env, rows, s');
    }
  }

  /** SES was given the k-th row's message, refused it, and the run went on. */
  predicate RefusedAt(cfg: Config, env: Setting, rows: map<RowId, Row>, outcomes: seq<Outcome>, k: nat)
    requires k < |outcomes| && k < |env.batch| && env.batch[k] in rows
  {
    outcomes[k].Returned? && SesRefuses(Claimed(rows[env.batch[k]], env.run, env.now), env.turn(k).x)
  }

  /** Five refusals in a row, from the i-th outcome on. */
  predicate FiveRefused(cfg: Config, env: Setting, rows: map<RowId, Row>, outcomes: seq<Outcome>, i: nat)
    requires Present(rows, env.batch) && i + FAILURE_LIMIT <= |outcomes| <= |env.batch|
  {
    forall k | i <= k < i + FAILURE_LIMIT :: RefusedAt(cfg, env, rows, outcomes, k)
  }

  /** A run stops for transport failures exactly when its last five outcomes are refusals, and
      five refusals in a row can only be its last five outcomes. */
  predicate StopsAtFive(cfg: Config, env: Setting, rows: map<RowId, Row>, outcomes: seq<Outcome>, m: Summary)
    requires Present(rows, env.batch) && |outcomes| <= |env.batch|
  {
    var n := |outcomes|;
    && (m.stopped == Some(TransportFailures) <==>
          n >= FAILURE_LIMIT && FiveRefused(cfg, env, rows, outcomes, n - FAILURE_LIMIT))
    && (forall i | 0 <= i <= n - FAILURE_LIMIT && FiveRefused(cfg, env, rows, outcomes, i) :: i + FAILURE_LIMIT == n)
  }

  lemma RefusalsAreFailures(cfg: Config, env: Setting, rows: map<RowId, Row>, outcomes: seq<Outcome>, stopped: bool,
          i: nat)
    requires Present(rows, env.batch) && i + FAILURE_LIMIT <= |outcomes| <= |env.batch|
    requires Follows(outcomes, Steps(cfg, env, rows), stopped)
    ensures FiveRefused(cfg, env, rows, outcomes, i) <==>
            Streak(Steps(cfg, env, rows), i + FAILURE_LIMIT) >= FAILURE_LIMIT
  {
    var steps := Steps(cfg, env, rows);
    forall k | i <= k < i + FAILURE_LIMIT
      ensures RefusedAt(cfg, env, rows, outcomes, k) <==> Fails(steps[k])
    {
      if steps[k].outcome.Returned? {
        TransportTestExact(cfg, Claimed(rows[env.batch[k]], env.run, env.now), env.turn(k).x);
      }
    }
    FiveInARow(steps, i);
  }

  lemma FiveInARow(steps: seq<Effect>, i: nat)
    requires i + FAILURE_LIMIT <= |steps|
    ensures (forall k | i <= k < i + FAILURE_LIMIT :: Fails(steps[k])) <==>
            Streak(steps, i + FAILURE_LIMIT) >= FAILURE_LIMIT
  {
    var k := Streak(steps, i + FAILURE_LIMIT);
  }

  lemma StopsAtFiveRefusals(cfg: Config, slack: Slack.SlackConfig, db: Db, env: Setting)
    requires Fits(cfg, db, env)
    ensures Present(db.rows, env.batch)
    ensures var r := Drain(cfg, slack, db, env);
            |r.outcomes| <= |env.batch| && StopsAtFive(cfg, env, Swept(db, env).rows, r.outcomes, r.summary)
  {
    FitsBatch(cfg, db, env);
    LoopedStopsAtFive(cfg, slack, db, env);
    ClosingRows(cfg, slack, env, Looped(cfg, slack, db, env));
  }

  lemma LoopedStopsAtFive(cfg: Config, slack: Slack.SlackConfig, db: Db, env: Setting)
    requires Present(db.rows, env.batch) && Distinct(env.batch)
    ensures var s := Looped(cfg, slack, db, env);
            |s.outcomes| <= |env.batch| && StopsAtFive(cfg, env, Swept(db, env).rows, s.outcomes, s.summary)
  {
    var rows := Swept(db, env).rows;
    LoopProgress(cfg, slack, env, rows, Opening(cfg, db, env));
    LoopWatched(cfg, slack, env, rows, Opening(cfg, db, env));
    LoopStopsAtFive(cfg, env, rows, Looped(cfg, slack, db, env));
  }

  lemma LoopStopsAtFive(cfg: Config, env: Setting, rows: map<RowId, Row>, s: Loop)
    requires Present(rows, env.batch) && |s.outcomes| <= |env.batch|
    requires Follows(s.outcomes, Steps(cfg, env, rows), s.Stopped()) && Watched(Steps(cfg, env, rows), s)
    ensures StopsAtFive(cfg, env, rows, s.outcomes, s.summary)
  {
    forall i | 0 <= i <= |s.outcomes| - FAILURE_LIMIT
      ensures FiveRefused(cfg, env, rows, s.outcomes, i) <==>
            Streak(Steps(cfg, env, rows), i + FAILURE_LIMIT) >= FAILURE_LIMIT
    {
      RefusalsAreFailures(cfg, env, rows, s.outcomes, s.Stopped(), i);
    }
    var steps := Steps(cfg, env, rows);
    if |s.outcomes| < FAILURE_LIMIT { assert Streak(steps, |s.outcomes|) < FAILURE_LIMIT; }
  }

  // ------------------------------------------------------------- one row that stops all mail

  /** The run's first row makes process_row fail uncontained. */
  ghost predicate FaultsFirst(cfg: Config, db: Db, env: Setting) {
    Fits(cfg, db, env) && env.batch != [] && EarlyStop(cfg, env, db.logs, 0).None? && env.turn(0).fault
  }

  predicate Settled(db: Db) { forall id | id in db.rows :: db.rows[id].status != Sending && Restorable(db.rows[id]) }

  /** Such a run leaves settled tables exactly as it found them. */
  lemma FaultChangesNothing(cfg: Config, slack: Slack.SlackConfig, db: Db, env: Setting)
    requires FaultsFirst(cfg, db, env) && Settled(db)
    ensures Present(db.rows, env.batch) && Drain(cfg, slack, db, env).crashed && Drain(cfg, slack, db, env).db == db
  {
    FitsBatch(cfg, db, env);
    assert Swept(db, env).rows == db.rows;
    var s := Opening(cfg, db, env);
    var s1 := s.(crashed := true);
    assert Advance(cfg, slack, env, s) == s1;
    assert RunLoop(cfg, slack, env, s) == RunLoop(cfg, slack, env, s1) == s1;
    forall id | id in db.rows
      ensures Release(s1.db, env.run).rows[id] == db.rows[id]
    {
      if id in env.batch { assert Due(db.rows[id], env.now); }
    }
  }

  /** Whenever two claims find rows due, they find the same row first. */
  lemma SameHead(rows: map<RowId, Row>, now: Time, size: nat, a: seq<RowId>, now': Time, size': nat, b: seq<RowId>)
    requires IsDueBatch(rows, now, size, a) && IsDueBatch(rows, now', size', b) && a != [] && b != []
    ensures a[0] == b[0]
  {
    assert a[0] in a && b[0] in b;
    if a[0] != b[0] {
      HeadFirst(rows, now, size, a, b[0]);
      HeadFirst(rows, now', size', b, a[0]);
    }
  }

  lemma HeadFirst(rows: map<RowId, Row>, now: Time, size: nat, a: seq<RowId>, id: RowId)
    requires IsDueBatch(rows, now, size, a) && a != [] && id in rows && rows[id].status.Claimable() && id != a[0]
    ensures Before(rows, a[0], id)
  {
    assert a[0] in a;
    if id in a {
      var k :| 0 <= k < |a| && a[k] == id;
    }
  }

  /** A run that fails on its first row, and the tables it leaves. */
  ghost predicate FaultyRun(cfg: Config, slack: Slack.SlackConfig, db: Db, env: Setting, db': Db) {
    FaultsFirst(cfg, db, env) && Present(db.rows, env.batch) && db' == Drain(cfg, slack, db, env).db
  }

  lemma FaultyRunIdles(cfg: Config, slack: Slack.SlackConfig, db: Db, env: Setting, db': Db)
    requires FaultyRun(cfg, slack, db, env, db') && Settled(db)
    ensures db' == db && FaultsFirst(cfg, db, env)
  {
    FaultChangesNothing(cfg, slack, db, env);
  }

  /** Such runs, one after another: the n-th takes the tables from dbs[n] to dbs[n + 1]. */
  ghost predicate FaultyRuns(cfg: Config, slack: Slack.SlackConfig, dbs: seq<Db>, envs: seq<Setting>) {
    |dbs| == |envs| + 1 && forall n | 0 <= n < |envs| :: FaultyRun(cfg, slack, dbs[n], envs[n], dbs[n + 1])
  }

  lemma {:induction false} FaultsKeep(cfg: Config, slack: Slack.SlackConfig, dbs: seq<Db>, envs: seq<Setting>, n: nat)
    requires FaultyRuns(cfg, slack, dbs, envs) && Settled(dbs[0]) && n <= |envs|
    ensures dbs[n] == dbs[0]
  {
    if n > 0 {
      FaultsKeep(cfg, slack, dbs, envs, n - 1);
      FaultyRunIdles(cfg, slack, dbs[n - 1], envs[n - 1], dbs[n]);
    }
  }

  lemma FaultClaims(cfg: Config, db: Db, env: Setting)
    requires FaultsFirst(cfg, db, env) && Settled(db)
    ensures IsDueBatch(db.rows, env.now, cfg.batchSize, env.batch)
  {
    assert Swept(db, env).rows == db.rows;
  }

  /** One row whose failure process_row does not contain stops all mail: however many runs follow,
      each claims that row first again, and the tables never change. */
  lemma StuckAtHead(cfg: Config, slack: Slack.SlackConfig, dbs: seq<Db>, envs: seq<Setting>, n: nat)
    requires FaultyRuns(cfg, slack, dbs, envs) && Settled(dbs[0]) && n < |envs|
    ensures dbs[n + 1] == dbs[0]
    ensures envs[n].batch != [] && envs[0].batch != [] && envs[n].batch[0] == envs[0].batch[0]
  {
    FaultsKeep(cfg, slack, dbs, envs, n);
    FaultsKeep(cfg, slack, dbs, envs, n + 1);
    FaultyRunIdles(cfg, slack, dbs[0], envs[0], dbs[1]);
    FaultyRunIdles(cfg, slack, dbs[n], envs[n], dbs[n + 1]);
    FaultClaims(cfg, dbs[0], envs[0]);
    FaultClaims(cfg, dbs[0], envs[n]);
    SameHead(dbs[0].rows, envs[n].now, cfg.batchSize, envs[n].batch, envs[0].now, cfg.batchSize, envs[0].batch);
  }
}
