/** The drain loop refines the interleaved machine: whatever drain_outbox does to the tables is
    done by a history of module World, so every guarantee about histories holds of it. */
module DrainHistory {
  import opened Basics
  import opened Outbox
  import opened DrainRun
  import opened World
  import DrainFacts
  import Guarantees
  import Slack

  /** The run keeps to its latencies, on a clock that only moves forward. */
  ghost predicate Punctual(lat: Latency, env: Setting) {
    && env.now <= env.loopFrom <= env.now + lat.claim
    && env.loopFrom <= env.turn(0).beganAt
    && forall i: nat :: TurnPunctual(lat, env, i)
  }

  predicate TurnPunctual(lat: Latency, env: Setting, i: nat) {
    var t := env.turn(i);
    && t.beganAt <= t.x.checkedAt <= t.x.calledAt <= t.x.doneAt <= t.beganAt + lat.row
    && t.x.doneAt <= env.turn(i + 1).beganAt
  }

  /** The machine stands where the loop stands. */
  ghost predicate Mirrors(w: World, env: Setting, s: Loop) {
    && w.db == s.db
    && env.run in w.runs
    && w.runs[env.run] ==
       Run(env.now, if s.crashed then Dying else Looping, env.loopFrom, env.batch, |s.outcomes|, None)
    && (!s.Stopped() ==> w.clock <= env.turn(|s.outcomes|).beganAt)
  }

  /** The history holds every row the loop processed, with all that process_row met, and the row
      a failure took back. */
  predicate Recounts(env: Setting, steps: seq<Step>, outcomes: seq<Outcome>, crashed: bool) {
    && (forall k | 0 <= k < |outcomes| :: CommitRow(env.run, env.turn(k).x) in steps)
    && (crashed ==> LoseRow(env.run, env.turn(|outcomes|).x) in steps)
  }

  lemma RecountsLonger(env: Setting, steps: seq<Step>, steps': seq<Step>, outcomes: seq<Outcome>, crashed: bool)
    requires Recounts(env, steps, outcomes, crashed) && steps <= steps'
    ensures Recounts(env, steps', outcomes, crashed)
  {
    forall step | step in steps
      ensures step in steps'
    {
      var i :| 0 <= i < |steps| && steps[i] == step;
      assert steps'[i] == step;
    }
  }

  lemma TakeAlert(cfg: Config, lat: Latency, t0: Time, steps: seq<Step>, w: World, slack: Slack.SlackConfig, a: Alert)
    returns (steps': seq<Step>)
    requires Leads(cfg, lat, t0, steps, w)
    ensures steps <= steps' && Leads(cfg, lat, t0, steps', w.(db := PostAlert(slack, w.db, a)))
  {
    if a.Logged? {
      steps' := TakeStep(cfg, lat, t0, steps, w, OtherLog(Slack.NoticeLog(slack, w.db, a.call)));
    } else {
      steps' := steps;
    }
  }

  /** The run begins the row, and time passes until process_row is done with it. */
  lemma TakeBegin(cfg: Config, lat: Latency, t0: Time, steps: seq<Step>, w: World, env: Setting, i: nat)
    returns (steps': seq<Step>, w': World)
    requires Punctual(lat, env) && Leads(cfg, lat, t0, steps, w) && i < |env.batch|
    requires env.run in w.runs && w.runs[env.run] == Run(env.now, Looping, env.loopFrom, env.batch, i, None)
    requires w.clock <= env.turn(i).beganAt <= env.loopFrom + cfg.maxSeconds && env.batch[i] in w.db.rows
    ensures steps <= steps' && Leads(cfg, lat, t0, steps', w')
    ensures w'.db == w.db && w'.clock == env.turn(i).x.doneAt && CanWork(lat, w', env.run, env.turn(i).x)
    ensures w'.runs[env.run] ==
            Run(env.now, Looping, env.loopFrom, env.batch, i, Some(env.turn(i).beganAt))
  {
    assert TurnPunctual(lat, env, i);
    var t := env.turn(i);
    steps' := TakeStep(cfg, lat, t0, steps, w, Tick(t.beganAt - w.clock));
    var w1 := w.(clock := t.beganAt);
    steps' := TakeStep(cfg, lat, t0, steps', w1, BeginRow(env.run));
    var w2 := Apply(cfg, lat, w1, BeginRow(env.run));
    steps' := TakeStep(cfg, lat, t0, steps', w2, Tick(t.x.doneAt - t.beganAt));
    w' := w2.(clock := t.x.doneAt);
  }

  lemma TurnTables(cfg: Config, slack: Slack.SlackConfig, env: Setting, s: Loop)
    requires |s.outcomes| < |env.batch| && env.batch[|s.outcomes|] in s.db.rows && !s.Stopped()
    ensures var i := |s.outcomes|;
            var s' := Advance(cfg, slack, env, s);
            var db' := ProcessRow(cfg, s.db, env.batch[i], env.turn(i).x);
            if s'.outcomes == s.outcomes then
              s'.db == s.db && s'.Stopped() && (s'.crashed ==> EarlyStop(cfg, env, s.db.logs, i).None?)
            else
              && |s'.outcomes| == i + 1 && s'.outcomes[..i] == s.outcomes && !s'.crashed
              && EarlyStop(cfg, env, s.db.logs, i).None?
              && (s'.db == db' || s'.db == PostAlert(slack, db', env.turn(i).alert))
  {
  }

  lemma TakeTurn(cfg: Config, lat: Latency, t0: Time, steps: seq<Step>, w: World, slack: Slack.SlackConfig,
          env: Setting, s: Loop)
    returns (steps': seq<Step>, w': World)
    requires Punctual(lat, env) && Leads(cfg, lat, t0, steps, w) && Mirrors(w, env, s)
    requires |s.outcomes| < |env.batch| && env.batch[|s.outcomes|] in s.db.rows && !s.Stopped()
    requires Recounts(env, steps, s.outcomes, s.crashed)
    ensures steps <= steps' && Leads(cfg, lat, t0, steps', w')
    ensures var s' := Advance(cfg, slack, env, s);
            Mirrors(w', env, s') && Recounts(env, steps', s'.outcomes, s'.crashed)
  {
    var i := |s.outcomes|;
    var s' := Advance(cfg, slack, env, s);
    TurnTables(cfg, slack, env, s);
    steps', w' := steps, w;
    if s'.crashed {
      steps', w' := TakeLost(cfg, lat, t0, steps, w, env, s.outcomes);
    } else if s'.outcomes != s.outcomes {
      steps', w' := TakeRow(cfg, lat, t0, steps, w, env, s.outcomes, s'.outcomes);
      if s'.db != w'.db {
        var longer := TakeAlert(cfg, lat, t0, steps', w', slack, env.turn(i).alert);
        RecountsLonger(env, steps', longer, s'.outcomes, false);
        steps', w' := longer, w'.(db := PostAlert(slack, w'.db, env.turn(i).alert));
      }
    }
  }

  /** The row is processed and committed. */
  lemma TakeRow(cfg: Config, lat: Latency, t0: Time, steps: seq<Step>, w: World, env: Setting, past: seq<Outcome>,
          outcomes: seq<Outcome>)
    returns (steps': seq<Step>, w': World)
    requires Punctual(lat, env) && Leads(cfg, lat, t0, steps, w)
    requires |past| < |env.batch| && Recounts(env, steps, past, false)
    requires |outcomes| == |past| + 1
    requires env.run in w.runs && w.runs[env.run] == Run(env.now, Looping, env.loopFrom, env.batch, |past|, None)
    requires w.clock <= env.turn(|past|).beganAt <= env.loopFrom + cfg.maxSeconds && env.batch[|past|] in w.db.rows
    ensures steps <= steps' && Leads(cfg, lat, t0, steps', w') && Recounts(env, steps', outcomes, false)
    ensures w'.db == ProcessRow(cfg, w.db, env.batch[|past|], env.turn(|past|).x)
    ensures env.run in w'.runs
    ensures w'.runs[env.run] == Run(env.now, Looping, env.loopFrom, env.batch, |past| + 1, None)
    ensures w'.clock <= env.turn(|past| + 1).beganAt
  {
    var i := |past|;
    assert TurnPunctual(lat, env, i);
    var begun, w1 := TakeBegin(cfg, lat, t0, steps, w, env, i);
    RecountsLonger(env, steps, begun, past, false);
    steps' := TakeStep(cfg, lat, t0, begun, w1, CommitRow(env.run, env.turn(i).x));
    w' := Apply(cfg, lat, w1, CommitRow(env.run, env.turn(i).x));
    RecountsLonger(env, begun, steps', past, false);
    assert steps'[|begun|] == CommitRow(env.run, env.turn(i).x);
  }

  /** What process_row did is lost to a failure before its commit. */
  lemma TakeLost(cfg: Config, lat: Latency, t0: Time, steps: seq<Step>, w: World, env: Setting, outcomes: seq<Outcome>)
    returns (steps': seq<Step>, w': World)
    requires Punctual(lat, env) && Leads(cfg, lat, t0, steps, w) && |outcomes| < |env.batch|
    requires Recounts(env, steps, outcomes, false)
    requires env.run in w.runs && w.runs[env.run] == Run(env.now, Looping, env.loopFrom, env.batch, |outcomes|, None)
    requires w.clock <= env.turn(|outcomes|).beganAt <= env.loopFrom + cfg.maxSeconds
    requires env.batch[|outcomes|] in w.db.rows
    ensures steps <= steps' && Leads(cfg, lat, t0, steps', w') && Recounts(env, steps', outcomes, true)
    ensures w'.db == w.db && env.run in w'.runs
    ensures w'.runs[env.run] == Run(env.now, Dying, env.loopFrom, env.batch, |outcomes|, None)
  {
    var x := env.turn(|outcomes|).x;
    var begun, w1 := TakeBegin(cfg, lat, t0, steps, w, env, |outcomes|);
    RecountsLonger(env, steps, begun, outcomes, false);
    steps' := TakeStep(cfg, lat, t0, begun, w1, LoseRow(env.run, x));
    w' := Apply(cfg, lat, w1, LoseRow(env.run, x));
    RecountsLonger(env, begun, steps', outcomes, false);
    assert steps'[|begun|] == LoseRow(env.run, x);
  }

  lemma {:induction false} TakeLoop(cfg: Config, lat: Latency, t0: Time, steps: seq<Step>, w: World,
          slack: Slack.SlackConfig, env: Setting, s: Loop)
    returns (steps': seq<Step>, w': World)
    requires Punctual(lat, env) && Leads(cfg, lat, t0, steps, w) && Mirrors(w, env, s)
    requires |s.outcomes| <= |env.batch| && Present(s.db.rows, env.batch) && Recounts(env, steps, s.outcomes, s.crashed)
    ensures steps <= steps' && Leads(cfg, lat, t0, steps', w')
    ensures var s' := RunLoop(cfg, slack, env, s);
            Mirrors(w', env, s') && Recounts(env, steps', s'.outcomes, s'.crashed)
    decreases |env.batch| - |s.outcomes|, if s.Stopped() then 0 else 1
  {
    steps', w' := steps, w;
    if !s.Stopped() && |s.outcomes| < |env.batch| {
      AdvanceKeepsRows(cfg, slack, env, s);
      TurnTables(cfg, slack, env, s);
      steps', w' := TakeTurn(cfg, lat, t0, steps, w, slack, env, s);
      steps', w' := TakeLoop(cfg, lat, t0, steps', w', slack, env, Advance(cfg, slack, env, s));
    }
  }

  /** The world in which a run that has swept begins its loop. */
  function SweptWorld(w: World, env: Setting): World {
    World(env.loopFrom, Swept(w.db, env), w.runs[env.run := Run(env.now, HasReaped, env.now, [], 0, None)])
  }

  lemma TakeSweep(cfg: Config, lat: Latency, t0: Time, steps: seq<Step>, w: World, env: Setting)
    returns (steps': seq<Step>)
    requires Punctual(lat, env) && Leads(cfg, lat, t0, steps, w)
    requires w.clock <= env.now && env.run !in w.runs
    ensures steps <= steps' && Leads(cfg, lat, t0, steps', SweptWorld(w, env))
  {
    steps' := TakeStep(cfg, lat, t0, steps, w, Tick(env.now - w.clock));
    var w1 := w.(clock := env.now);
    steps' := TakeStep(cfg, lat, t0, steps', w1, StartRun(env.run));
    var w2 := Apply(cfg, lat, w1, StartRun(env.run));
    steps' := TakeStep(cfg, lat, t0, steps', w2, ReapStale(env.run));
    var w3 := Apply(cfg, lat, w2, ReapStale(env.run));
    steps' := TakeStep(cfg, lat, t0, steps', w3, Tick(env.loopFrom - env.now));
    assert w3.(clock := env.loopFrom) == SweptWorld(w, env);
  }

  /** Start, sweep and claim. */
  lemma TakeOpening(cfg: Config, lat: Latency, t0: Time, steps: seq<Step>, w: World, env: Setting)
    returns (steps': seq<Step>, w': World)
    requires Punctual(lat, env) && Leads(cfg, lat, t0, steps, w)
    requires w.clock <= env.now && env.run !in w.runs && Fits(cfg, w.db, env)
    ensures steps <= steps' && Leads(cfg, lat, t0, steps', w') && Mirrors(w', env, Opening(cfg, w.db, env))
  {
    steps' := TakeSweep(cfg, lat, t0, steps, w, env);
    var w1 := SweptWorld(w, env);
    if OverLimit(cfg, w.db, env) {
      steps' := TakeStep(cfg, lat, t0, steps', w1, SkipClaim(env.run));
      w' := Apply(cfg, lat, w1, SkipClaim(env.run));
      assert Claim(w1.db, env.run, env.now, []).rows == w1.db.rows;
    } else {
      DueBatchIsClaimBatch(w1.db.rows, env.now, cfg.batchSize, env.batch);
      steps' := TakeStep(cfg, lat, t0, steps', w1, ClaimDue(env.run, env.batch));
      w' := Apply(cfg, lat, w1, ClaimDue(env.run, env.batch));
    }
  }

  /** Alert, release and prune; a crashed run only releases. */
  lemma TakeClosing(cfg: Config, lat: Latency, t0: Time, steps: seq<Step>, w: World, slack: Slack.SlackConfig,
          env: Setting, s: Loop)
    returns (steps': seq<Step>, w': World)
    requires Leads(cfg, lat, t0, steps, w) && Mirrors(w, env, s)
    ensures steps <= steps' && Leads(cfg, lat, t0, steps', w') && w'.db == Closing(cfg, slack, env, s).db
  {
    steps', w' := steps, w;
    if !s.crashed && s.renderKeys != {} {
      steps' := TakeAlert(cfg, lat, t0, steps, w, slack, env.renderAlert);
      w' := w.(db := PostAlert(slack, w.db, env.renderAlert));
    }
    steps' := TakeStep(cfg, lat, t0, steps', w', ReleaseRun(env.run));
    w' := Apply(cfg, lat, w', ReleaseRun(env.run));
    if !s.crashed {
      steps' := TakeStep(cfg, lat, t0, steps', w', PruneRows(env.run));
      w' := Apply(cfg, lat, w', PruneRows(env.run));
    }
  }

  /** A whole run, started from any state a history can reach, extends that history, and the
      extension holds every row the run processed, committed or lost, with the same inputs. */
  lemma DrainIsHistory(cfg: Config, lat: Latency, t0: Time, steps: seq<Step>, slack: Slack.SlackConfig, env: Setting)
    returns (steps': seq<Step>)
    requires Valid(cfg, lat, t0, steps) && Punctual(lat, env)
    requires var w := Exec(cfg, lat, t0, steps);
             w.clock <= env.now && env.run !in w.runs && Fits(cfg, w.db, env)
    ensures steps <= steps' && Valid(cfg, lat, t0, steps')
    ensures Present(Exec(cfg, lat, t0, steps).db.rows, env.batch)
    ensures var r := Drain(cfg, slack, Exec(cfg, lat, t0, steps).db, env);
            Exec(cfg, lat, t0, steps').db == r.db && Recounts(env, steps', r.outcomes, r.crashed)
  {
    var w := Exec(cfg, lat, t0, steps);
    var w';
    steps', w' := TakeOpening(cfg, lat, t0, steps, w, env);
    steps', w' := TakeLoop(cfg, lat, t0, steps', w', slack, env, Opening(cfg, w.db, env));
    var s := Looped(cfg, slack, w.db, env);
    var looped := steps';
    steps', w' := TakeClosing(cfg, lat, t0, looped, w', slack, env, s);
    RecountsLonger(env, looped, steps', s.outcomes, s.crashed);
  }

  /** In every table a history can reach, the rows a run can claim are as their release would
      leave them. */
  lemma ReachableRowsRestore(cfg: Config, lat: Latency, t0: Time, steps: seq<Step>, id: RowId)
    requires Valid(cfg, lat, t0, steps) && id in Exec(cfg, lat, t0, steps).db.rows
    ensures DrainFacts.Restorable(Exec(cfg, lat, t0, steps).db.rows[id])
  {
    Guarantees.CoupledAlways(cfg, lat, t0, steps);
  }
}
