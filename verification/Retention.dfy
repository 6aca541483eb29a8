/** How long a row that has ended stays in the outbox: the prune counts from its creation, not
    from its end. */
module Retention {
  import opened Basics
  import opened Templates
  import opened Outbox
  import opened World
  import opened Lease
  import opened Histories
  import opened Guarantees
  import opened Scenarios

  /** The i-th step ends the row, created at c, at time e. */
  ghost predicate EndsAt(cfg: Config, lat: Latency, t0: Time, steps: seq<Step>, i: nat, id: RowId, c: Time, e: Time)
    requires Valid(cfg, lat, t0, steps) && i < |steps|
  {
    var w, w' := StateAt(cfg, lat, t0, steps, i), StateAt(cfg, lat, t0, steps, i + 1);
    && id in w.db.rows && !w.db.rows[id].status.Terminal() && w.db.rows[id].createdAt == c && w.clock == e
    && id in w'.db.rows && w'.db.rows[id].status.Terminal()
  }

  /** Every row created at c that ends at e is still in the table d later, in every history. */
  ghost predicate KeptFor(cfg: Config, lat: Latency, c: Time, e: Time, d: Time) {
    forall t0: Time, steps: seq<Step>, i: nat, j: nat, id: RowId |
      && Valid(cfg, lat, t0, steps) && i < j <= |steps| && EndsAt(cfg, lat, t0, steps, i, id, c, e)
      && StateAt(cfg, lat, t0, steps, j).clock <= e + d ::
      id in StateAt(cfg, lat, t0, steps, j).db.rows
  }

  /** It is kept exactly as long as retention from its creation lasts. */
  lemma KeptExactly(cfg: Config, lat: Latency, c: Time, e: Time, d: Time)
    requires cfg.Positive() && c <= e && d >= 0
    ensures KeptFor(cfg, lat, c, e, d) <==> e + d <= c + cfg.retention
  {
    if e + d <= c + cfg.retention {
      forall t0: Time, steps: seq<Step>, i: nat, j: nat, id: RowId |
        && Valid(cfg, lat, t0, steps) && i < j <= |steps| && EndsAt(cfg, lat, t0, steps, i, id, c, e)
        && StateAt(cfg, lat, t0, steps, j).clock <= e + d
        ensures id in StateAt(cfg, lat, t0, steps, j).db.rows
      {
        StateAfter(cfg, lat, t0, steps, i);
        PrefixValid(cfg, lat, t0, steps, i);
        CoupledAlways(cfg, lat, t0, steps[..i]);
        BirthKept(cfg, lat, StateAt(cfg, lat, t0, steps, i), steps[i], id);
        StaysWhileYoung(cfg, lat, t0, steps, i + 1, j, id);
      }
    } else {
      var steps, i, j := PrunedLate(cfg, lat, c, e, d);
    }
  }

  lemma BirthKept(cfg: Config, lat: Latency, w: World, step: Step, id: RowId)
    requires Enabled(cfg, lat, w, step) && id in w.db.rows && id < w.db.nextRow
    requires id in Apply(cfg, lat, w, step).db.rows
    ensures Apply(cfg, lat, w, step).db.rows[id].createdAt == w.db.rows[id].createdAt
  {
    if step.CommitRow? { ProcessKeepsBirth(cfg, w.db.rows[id], step.x); }
  }

  lemma ProcessKeepsBirth(cfg: Config, row: Row, x: Inputs)
    ensures Process(cfg, row, x).row.createdAt == row.createdAt
  {
  }

  /** No prune removes a row before its retention, counted from its creation, is over. */
  lemma {:induction false} StaysWhileYoung(cfg: Config, lat: Latency, t0: Time, steps: seq<Step>, i: nat, j: nat,
          id: RowId)
    requires Valid(cfg, lat, t0, steps) && i <= j <= |steps| && id in StateAt(cfg, lat, t0, steps, i).db.rows
    requires StateAt(cfg, lat, t0, steps, j).clock <=
             StateAt(cfg, lat, t0, steps, i).db.rows[id].createdAt + cfg.retention
    ensures var row, rows' := StateAt(cfg, lat, t0, steps, i).db.rows[id], StateAt(cfg, lat, t0, steps, j).db.rows;
            id in rows' && rows'[id].createdAt == row.createdAt
    decreases j - i
  {
    if i < j {
      StateAfter(cfg, lat, t0, steps, j - 1);
      ClockForward(cfg, lat, StateAt(cfg, lat, t0, steps, j - 1), steps[j - 1]);
      StaysWhileYoung(cfg, lat, t0, steps, i, j - 1, id);
      PrefixValid(cfg, lat, t0, steps, j - 1);
      TimedAlways(cfg, lat, t0, steps[..j - 1]);
      CoupledAlways(cfg, lat, t0, steps[..j - 1]);
      YoungStep(cfg, lat, StateAt(cfg, lat, t0, steps, j - 1), steps[j - 1], id);
    }
  }

  lemma ClockForward(cfg: Config, lat: Latency, w: World, step: Step)
    requires Enabled(cfg, lat, w, step)
    ensures w.clock <= Apply(cfg, lat, w, step).clock
  {
  }

  lemma YoungStep(cfg: Config, lat: Latency, w: World, step: Step, id: RowId)
    requires Enabled(cfg, lat, w, step) && AllTimed(cfg, lat, w) && id in w.db.rows && id < w.db.nextRow
    requires w.clock <= w.db.rows[id].createdAt + cfg.retention
    ensures var rows' := Apply(cfg, lat, w, step).db.rows;
            id in rows' && rows'[id].createdAt == w.db.rows[id].createdAt
  {
    RowFollows(cfg, lat, w, step, id);
    BirthKept(cfg, lat, w, step, id);
  }

  // ------------------------------------------------------------- rows pruned as soon as that

  /** A run that has claimed nothing, at the present instant. */
  function Idle(w: World, run: RunId): World {
    World(w.clock, w.db, w.runs[run := Run(w.clock, Looping, w.clock, [], 0, None)])
  }

  lemma StartIdle(cfg: Config, lat: Latency, t0: Time, steps: seq<Step>, w: World,
          run: RunId)
    returns (steps': seq<Step>)
    requires Leads(cfg, lat, t0, steps, w) && run !in w.runs
    requires forall id | id in w.db.rows :: w.db.rows[id].status.Terminal()
    ensures steps <= steps' && Leads(cfg, lat, t0, steps', Idle(w, run))
  {
    steps' := TakeStep(cfg, lat, t0, steps, w, StartRun(run));
    var w1 := Apply(cfg, lat, w, StartRun(run));
    steps' := TakeStep(cfg, lat, t0, steps', w1, ReapStale(run));
    assert Reap(w.db, w.clock).rows == w.db.rows;
    var w2 := Apply(cfg, lat, w1, ReapStale(run));
    steps' := TakeStep(cfg, lat, t0, steps', w2, SkipClaim(run));
    assert Apply(cfg, lat, w2, SkipClaim(run)) == Idle(w, run);
  }

  /** A looping run whose rows have all ended releases nothing and prunes. */
  lemma EndRun(cfg: Config, lat: Latency, t0: Time, steps: seq<Step>, w: World, run: RunId)
    returns (steps': seq<Step>, w': World)
    requires Leads(cfg, lat, t0, steps, w) && InPhase(w, run, Looping) && w.runs[run].now == w.clock
    requires forall id | id in w.db.rows :: w.db.rows[id].status.Terminal()
    ensures steps' == steps + [ReleaseRun(run), PruneRows(run)] && Leads(cfg, lat, t0, steps', w')
    ensures w'.clock == w.clock && w'.db.rows == Prune(cfg, w.db, w.clock).rows
  {
    steps' := TakeStep(cfg, lat, t0, steps, w, ReleaseRun(run));
    var w1 := Apply(cfg, lat, w, ReleaseRun(run));
    assert w1.db.rows == w.db.rows;
    steps' := TakeStep(cfg, lat, t0, steps', w1, PruneRows(run));
    w' := Apply(cfg, lat, w1, PruneRows(run));
  }

  /** A row queued at c and withdrawn at e. */
  lemma WithdrawnAt(cfg: Config, lat: Latency, c: Time, e: Time) returns (before: seq<Step>, w: World)
    requires c <= e
    ensures Leads(cfg, lat, c, before, w) && w == Fresh(c, REQUEST, PLAIN).(clock := e)
    ensures var step := WithdrawRow(0);
            Enabled(cfg, lat, w, step) && Leads(cfg, lat, c, before + [step], Apply(cfg, lat, w, step))
  {
    var s := Story(NewRow(REQUEST, PLAIN, c), None, []);
    before := Queue(cfg, lat, c, REQUEST, PLAIN);
    before := Wait(cfg, lat, c, before, Fresh(c, REQUEST, PLAIN), 0, s, e);
    w := Fresh(c, REQUEST, PLAIN).(clock := e);
    var _ := TakeStep(cfg, lat, c, before, w, WithdrawRow(0));
  }

  lemma PrunedLate(cfg: Config, lat: Latency, c: Time, e: Time, d: Time) returns (steps: seq<Step>, i: nat, j: nat)
    requires c <= e && d >= 0 && e + d > c + cfg.retention
    ensures Valid(cfg, lat, c, steps) && i < j <= |steps| && EndsAt(cfg, lat, c, steps, i, 0, c, e)
    ensures StateAt(cfg, lat, c, steps, j).clock <= e + d && 0 !in StateAt(cfg, lat, c, steps, j).db.rows
  {
    var before, w := WithdrawnAt(cfg, lat, c, e);
    var ended := before + [WithdrawRow(0)];
    var w1 := Apply(cfg, lat, w, WithdrawRow(0));
    var at := if e > c + cfg.retention then e else c + cfg.retention + 1;
    steps := TakeStep(cfg, lat, c, ended, w1, Tick(at - e));
    var w2 := w1.(clock := at);
    steps := StartIdle(cfg, lat, c, steps, w2, 1);
    var w3;
    steps, w3 := EndRun(cfg, lat, c, steps, Idle(w2, 1), 1);
    i, j := |before|, |steps|;
    Passes(cfg, lat, c, before, w, steps);
    Passes(cfg, lat, c, ended, w1, steps);
    Passes(cfg, lat, c, steps, w3, steps);
  }

  /** A row older than the retention is pruned by the very run that sends it. */
  lemma PrunedAsItEnds(cfg: Config, lat: Latency, c: Time) returns (steps: seq<Step>, i: nat)
    requires Roomy(cfg, lat) && cfg.retention >= 0
    ensures Valid(cfg, lat, c, steps) && i < |steps|
    ensures steps[i].CommitRow? && steps[|steps| - 1] == PruneRows(steps[i].run)
    ensures EndsAt(cfg, lat, c, steps, i, 0, c, c + cfg.retention + 1)
    ensures StateAt(cfg, lat, c, steps, i + 1).db.rows[0].status == Sent
    ensures var w := Exec(cfg, lat, c, steps); 0 !in w.db.rows && w.clock == c + cfg.retention + 1
  {
    var at := c + cfg.retention + 1;
    var before, w, w1 := SentOld(cfg, lat, c, at);
    var sent := before + [CommitRow(1, Sends(at))];
    var w2;
    steps, w2 := EndRun(cfg, lat, c, sent, w1, 1);
    i := |before|;
    Passes(cfg, lat, c, before, w, steps);
    Passes(cfg, lat, c, sent, w1, steps);
  }

  /** A row queued at c, claimed and sent at `at`. */
  lemma SentOld(cfg: Config, lat: Latency, c: Time, at: Time) returns (before: seq<Step>, w: World, w1: World)
    requires Roomy(cfg, lat) && c <= at
    ensures Leads(cfg, lat, c, before, w) && w.clock == at && 0 in w.db.rows
    ensures !w.db.rows[0].status.Terminal() && w.db.rows[0].createdAt == c
    ensures Leads(cfg, lat, c, before + [CommitRow(1, Sends(at))], w1) && w1.clock == at && w1.db.rows.Keys == {0}
    ensures w1.db.rows[0].status == Sent && w1.db.rows[0].createdAt == c
    ensures InPhase(w1, 1, Looping) && w1.runs[1].now == at
  {
    var s := Story(NewRow(REQUEST, PLAIN, c), None, []);
    before := Queue(cfg, lat, c, REQUEST, PLAIN);
    before := Wait(cfg, lat, c, before, Fresh(c, REQUEST, PLAIN), 0, s, at);
    before, s := Work(cfg, lat, c, before, Fresh(c, REQUEST, PLAIN).(clock := at), 0, s, 1);
    w := Working(Fresh(c, REQUEST, PLAIN).(clock := at), 1, 0);
    w1 := SendTaken(cfg, lat, c, before, w, at);
  }

  lemma SendTaken(cfg: Config, lat: Latency, c: Time, before: seq<Step>, w: World, at: Time) returns (w1: World)
    requires Roomy(cfg, lat) && c <= at && w == Working(Fresh(c, REQUEST, PLAIN).(clock := at), 1, 0)
    requires Leads(cfg, lat, c, before, w)
    ensures Leads(cfg, lat, c, before + [CommitRow(1, Sends(at))], w1) && w1.clock == at && w1.db.rows.Keys == {0}
    ensures w1.db.rows[0].status == Sent && w1.db.rows[0].createdAt == c
    ensures InPhase(w1, 1, Looping) && w1.runs[1].now == at
  {
    var _ := TakeStep(cfg, lat, c, before, w, CommitRow(1, Sends(at)));
    w1 := Apply(cfg, lat, w, CommitRow(1, Sends(at)));
  }
}
