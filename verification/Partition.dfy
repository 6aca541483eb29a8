/** The partition of a claimed batch beside other runs: while its lease lasts, whatever
    interleaves, each row of a run is either committed by that run or given back as it was. */
module Partition {
  import opened Basics
  import opened Outbox
  import opened World
  import opened Lease
  import opened Histories
  import opened Guarantees
  import L = RowLife

  /** The rows agree but for references whose targets were deleted. */
  predicate SameButReferences(a: Row, b: Row) {
    a == b.(workItem := a.workItem, event := a.event, department := a.department)
  }

  predicate Working(w: World, run: RunId) { run in w.runs && w.runs[run].phase in {Looping, Dying} }

  /** A run at work was at work before, further back in the same batch, unless it claims now. */
  lemma WorkedBefore(cfg: Config, lat: Latency, w: World, step: Step, run: RunId)
    requires Enabled(cfg, lat, w, step) && run in w.runs && w.runs[run].phase !in {Started, HasReaped}
    requires Working(Apply(cfg, lat, w, step), run)
    ensures var r, r' := w.runs[run], Apply(cfg, lat, w, step).runs[run];
            && Working(w, run) && r'.batch == r.batch && r'.now == r.now
            && r'.next == r.next + (if step.CommitRow? && step.run == run then 1 else 0)
            && step != ReleaseRun(run)
  {
  }

  /** Nothing but a deleted reference changes a row its run still holds. */
  lemma HeldUntouched(cfg: Config, lat: Latency, w: World, step: Step, run: RunId, id: RowId)
    requires LeaseFits(cfg, lat) && LeaseHeld(cfg, lat, w) && Enabled(cfg, lat, w, step)
    requires Working(w, run) && Holds(w, run, id) && step != ReleaseRun(run)
    requires Apply(cfg, lat, w, step).clock < w.runs[run].now + STALE_AFTER
    requires step.CommitRow? && step.run == run ==> id != InFlight(w.runs[run])
    ensures var rows' := Apply(cfg, lat, w, step).db.rows; id in rows' && SameButReferences(rows'[id], w.db.rows[id])
  {
    HoldKept(cfg, lat, w, step, run, id);
    RowFollows(cfg, lat, w, step, id);
    if EventOf(w, step, id).Some? {
      EventLegal(cfg, lat, w, step, id);
      if step.CommitRow? { CommitTakesNoOther(cfg, lat, w, step.run, step.x, run, id); }
    }
  }

  /** The i-th step claims this batch, and the run is still at work within its lease at state j. */
  ghost predicate AtWork(cfg: Config, lat: Latency, t0: Time, steps: seq<Step>, i: nat, j: nat)
    requires Valid(cfg, lat, t0, steps)
  {
    && i < j <= |steps| && steps[i].ClaimDue?
    && var w, run := StateAt(cfg, lat, t0, steps, j), steps[i].run;
       Working(w, run) && w.clock < w.runs[run].now + STALE_AFTER
  }

  /** What a state at work looks like just after the claim, or one step earlier. */
  lemma WorkBack(cfg: Config, lat: Latency, t0: Time, steps: seq<Step>, i: nat, j: nat)
    requires Valid(cfg, lat, t0, steps) && AtWork(cfg, lat, t0, steps, i, j)
    ensures StateAt(cfg, lat, t0, steps, j).runs[steps[i].run].batch == steps[i].batch
    ensures steps[i].run in StateAt(cfg, lat, t0, steps, i).runs
    ensures StateAt(cfg, lat, t0, steps, j).runs[steps[i].run].now ==
            StateAt(cfg, lat, t0, steps, i).runs[steps[i].run].now
    ensures j == i + 1 ==> StateAt(cfg, lat, t0, steps, j).runs[steps[i].run].next == 0
    ensures j > i + 1 ==>
              && AtWork(cfg, lat, t0, steps, i, j - 1) && steps[j - 1] != ReleaseRun(steps[i].run)
              && StateAt(cfg, lat, t0, steps, j).runs[steps[i].run].next ==
                 StateAt(cfg, lat, t0, steps, j - 1).runs[steps[i].run].next +
                 if steps[j - 1].CommitRow? && steps[j - 1].run == steps[i].run then 1 else 0
    decreases j - i
  {
    var run := steps[i].run;
    StateAfter(cfg, lat, t0, steps, i);
    StateAfter(cfg, lat, t0, steps, j - 1);
    if j == i + 1 {
      FreshlyClaimed(cfg, lat, t0, steps, i);
    } else {
      PositionAdvances(cfg, lat, t0, steps, i + 1, j - 1, run);
      WorkedBefore(cfg, lat, StateAt(cfg, lat, t0, steps, j - 1), steps[j - 1], run);
      ClockRises(cfg, lat, StateAt(cfg, lat, t0, steps, j - 1), steps[j - 1]);
      WorkBack(cfg, lat, t0, steps, i, j - 1);
    }
  }

  lemma ClockRises(cfg: Config, lat: Latency, w: World, step: Step)
    requires Enabled(cfg, lat, w, step)
    ensures w.clock <= Apply(cfg, lat, w, step).clock
  {
  }

  lemma FreshlyClaimed(cfg: Config, lat: Latency, t0: Time, steps: seq<Step>, i: nat)
    requires Valid(cfg, lat, t0, steps) && i < |steps| && steps[i].ClaimDue?
    ensures var w, w' := StateAt(cfg, lat, t0, steps, i), StateAt(cfg, lat, t0, steps, i + 1);
            var run := steps[i].run;
            && run in w.runs && run in w'.runs && w'.runs[run].next == 0 && w'.runs[run].batch == steps[i].batch
            && w'.runs[run].now == w.runs[run].now
  {
    StateAfter(cfg, lat, t0, steps, i);
    PrefixValid(cfg, lat, t0, steps, i);
    TimedAlways(cfg, lat, t0, steps[..i]);
  }

  /** A row the run has not reached is as the claim left it. */
  lemma {:induction false} UnreachedKept(cfg: Config, lat: Latency, t0: Time, steps: seq<Step>, i: nat, j: nat, k: nat)
    requires LeaseFits(cfg, lat) && Valid(cfg, lat, t0, steps) && AtWork(cfg, lat, t0, steps, i, j)
    requires StateAt(cfg, lat, t0, steps, j).runs[steps[i].run].next <= k < |steps[i].batch|
    ensures var w, run, id := StateAt(cfg, lat, t0, steps, i), steps[i].run, steps[i].batch[k];
            var rows' := StateAt(cfg, lat, t0, steps, j).db.rows;
            && run in w.runs && id in w.db.rows && id in rows'
            && SameButReferences(rows'[id], Claimed(w.db.rows[id], run, w.runs[run].now))
    decreases j - i
  {
    WorkBack(cfg, lat, t0, steps, i, j);
    StateAfter(cfg, lat, t0, steps, i);
    if j > i + 1 {
      UnreachedKept(cfg, lat, t0, steps, i, j - 1, k);
      WorkBack(cfg, lat, t0, steps, i, j - 1);
      UnreachedStep(cfg, lat, t0, steps, i, j, k);
    }
  }

  lemma UnreachedStep(cfg: Config, lat: Latency, t0: Time, steps: seq<Step>, i: nat, j: nat, k: nat)
    requires LeaseFits(cfg, lat) && Valid(cfg, lat, t0, steps) && i + 1 < j && AtWork(cfg, lat, t0, steps, i, j)
    requires AtWork(cfg, lat, t0, steps, i, j - 1) && steps[j - 1] != ReleaseRun(steps[i].run)
    requires var r := StateAt(cfg, lat, t0, steps, j - 1).runs[steps[i].run];
             var r' := StateAt(cfg, lat, t0, steps, j).runs[steps[i].run];
             && r.batch == steps[i].batch && r.now == r'.now && r'.next <= k < |r.batch|
             && r'.next == r.next + if steps[j - 1].CommitRow? && steps[j - 1].run == steps[i].run then 1 else 0
    ensures var rows, rows' := StateAt(cfg, lat, t0, steps, j - 1).db.rows, StateAt(cfg, lat, t0, steps, j).db.rows;
            var id := steps[i].batch[k];
            id in rows && id in rows' && SameButReferences(rows'[id], rows[id])
  {
    var w, step, run := StateAt(cfg, lat, t0, steps, j - 1), steps[j - 1], steps[i].run;
    StateAfter(cfg, lat, t0, steps, j - 1);
    PrefixValid(cfg, lat, t0, steps, j - 1);
    LeaseAlways(cfg, lat, t0, steps[..j - 1]);
    assert LeaseHeldBy(cfg, lat, w, run);
    assert Holds(w, run, w.runs[run].batch[k]);
    HeldUntouched(cfg, lat, w, step, run, w.runs[run].batch[k]);
  }

  /** A row the run has passed was committed by it, from the state the claim left it in. */
  lemma {:induction false} ReachedCommitted(cfg: Config, lat: Latency, t0: Time, steps: seq<Step>, i: nat, j: nat,
          k: nat)
    returns (m: nat)
    requires LeaseFits(cfg, lat) && Valid(cfg, lat, t0, steps) && AtWork(cfg, lat, t0, steps, i, j)
    requires k < StateAt(cfg, lat, t0, steps, j).runs[steps[i].run].next && k < |steps[i].batch|
    ensures i < m < j && CommitsClaimed(cfg, lat, t0, steps, i, m, k)
    decreases j - i
  {
    WorkBack(cfg, lat, t0, steps, i, j);
    var run := steps[i].run;
    if k < StateAt(cfg, lat, t0, steps, j - 1).runs[run].next {
      m := ReachedCommitted(cfg, lat, t0, steps, i, j - 1, k);
    } else {
      m := j - 1;
      CommittedHere(cfg, lat, t0, steps, i, m, k);
    }
  }

  lemma CommittedHere(cfg: Config, lat: Latency, t0: Time, steps: seq<Step>, i: nat, m: nat, k: nat)
    requires LeaseFits(cfg, lat) && Valid(cfg, lat, t0, steps) && m < |steps| && AtWork(cfg, lat, t0, steps, i, m)
    requires steps[m].CommitRow? && steps[m].run == steps[i].run && k < |steps[i].batch|
    requires StateAt(cfg, lat, t0, steps, m).runs[steps[i].run].next == k
    ensures CommitsClaimed(cfg, lat, t0, steps, i, m, k)
  {
    UnreachedKept(cfg, lat, t0, steps, i, m, k);
    WorkBack(cfg, lat, t0, steps, i, m);
    StateAfter(cfg, lat, t0, steps, m);
  }

  /** The m-th step commits the run's k-th row, as the i-th step claimed it. */
  ghost predicate CommitsClaimed(cfg: Config, lat: Latency, t0: Time, steps: seq<Step>, i: nat, m: nat, k: nat)
    requires Valid(cfg, lat, t0, steps) && i < m < |steps| && steps[i].ClaimDue? && k < |steps[i].batch|
  {
    var w, run, id := StateAt(cfg, lat, t0, steps, i), steps[i].run, steps[i].batch[k];
    var rows := StateAt(cfg, lat, t0, steps, m).db.rows;
    && steps[m].CommitRow? && steps[m].run == run && WorkedRow(cfg, lat, t0, steps, m) == id
    && run in w.runs && id in w.db.rows && id in rows
    && SameButReferences(rows[id], Claimed(w.db.rows[id], run, w.runs[run].now))
  }

  /** The partition: when a run releases its claims within its lease, each row it claimed was
      either committed by the run, from the state it was claimed in, or is back exactly as it was
      before the claim, whatever other runs, enqueues and operators have done meanwhile. */
  lemma ReleasePartition(cfg: Config, lat: Latency, t0: Time, steps: seq<Step>, i: nat, j: nat, k: nat)
    requires LeaseFits(cfg, lat) && Valid(cfg, lat, t0, steps) && j < |steps| && AtWork(cfg, lat, t0, steps, i, j)
    requires steps[j] == ReleaseRun(steps[i].run) && k < |steps[i].batch|
    ensures if k < StateAt(cfg, lat, t0, steps, j).runs[steps[i].run].next
            then exists m | i < m < j :: CommitsClaimed(cfg, lat, t0, steps, i, m, k)
            else
              var rows, rows' := StateAt(cfg, lat, t0, steps, i).db.rows, StateAt(cfg, lat, t0, steps, j + 1).db.rows;
              var id := steps[i].batch[k];
              id in rows && id in rows' && SameButReferences(rows'[id], rows[id])
  {
    if k < StateAt(cfg, lat, t0, steps, j).runs[steps[i].run].next {
      var m := ReachedCommitted(cfg, lat, t0, steps, i, j, k);
    } else {
      UnreachedKept(cfg, lat, t0, steps, i, j, k);
      StateAfter(cfg, lat, t0, steps, i);
      StateAfter(cfg, lat, t0, steps, j);
      PrefixValid(cfg, lat, t0, steps, i);
      CoupledAlways(cfg, lat, t0, steps[..i]);
      GivenBack(StateAt(cfg, lat, t0, steps, i).db.rows[steps[i].batch[k]],
                StateAt(cfg, lat, t0, steps, j).db.rows[steps[i].batch[k]], steps[i].run,
                StateAt(cfg, lat, t0, steps, i).runs[steps[i].run].now);
    }
  }

  lemma GivenBack(row: Row, claimed: Row, run: RunId, now: Time)
    requires L.Coupled(row) && Due(row, now) && SameButReferences(claimed, Claimed(row, run, now))
    ensures HeldBy(claimed, run) && SameButReferences(Released(claimed), row)
  {
  }
}
