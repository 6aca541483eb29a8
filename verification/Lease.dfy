/** Lease safety: the drainer never checks that it still owns a row it processes, so exclusion
    between overlapping runs rests on timing. Here is the timing, and that it is exactly enough. */
module Lease {
  import opened Basics
  import opened Templates
  import opened Outbox
  import opened World

  /** The timing the exclusion rests on. */
  predicate LeaseFits(cfg: Config, lat: Latency) {
    lat.claim + cfg.maxSeconds + lat.row < STALE_AFTER
  }

  /** The row is SENDING under this very claim, and was due when it was made. */
  predicate Holds(w: World, run: RunId, id: RowId)
    requires run in w.runs
  {
    && id in w.db.rows
    && var row := w.db.rows[id];
       && HeldBy(row, run) && row.claimedAt == Some(w.runs[run].now)
       && row.dispatchAt <= w.runs[run].now
  }

  predicate RunTimed(cfg: Config, lat: Latency, clock: Time, r: Run) {
    && r.now <= r.loopFrom <= clock
    && (r.phase in {Started, HasReaped} ==> r.batch == [] && r.next == 0 && r.begun.None?)
    && (r.phase == Looping && r.batch != [] ==> r.loopFrom <= r.now + lat.claim)
    && (r.begun.Some? ==> r.loopFrom <= r.begun.value <= clock && r.begun.value - r.loopFrom <= cfg.maxSeconds)
    && (forall i, j | 0 <= i < j < |r.batch| :: r.batch[i] != r.batch[j])
    && r.next <= |r.batch|
  }

  /** While its lease lasts, a run holds every row it has not processed yet. */
  ghost predicate LeaseHeld(cfg: Config, lat: Latency, w: World) {
    && (forall id | id in w.db.rows :: id < w.db.nextRow)
    && (forall run | run in w.runs :: LeaseHeldBy(cfg, lat, w, run))
  }

  ghost predicate LeaseHeldBy(cfg: Config, lat: Latency, w: World, run: RunId)
    requires run in w.runs
  {
    var r := w.runs[run];
    && RunTimed(cfg, lat, w.clock, r)
    && (r.phase in {Looping, Dying} && w.clock < r.now + STALE_AFTER ==>
          forall k | r.next <= k < |r.batch| :: Holds(w, run, r.batch[k]))
  }

  /** A row's processing falls inside the lease, so the run holds the row, whether or not the
      work is ever committed. */
  lemma WorkHolds(cfg: Config, lat: Latency, w: World, run: RunId, x: Inputs)
    requires LeaseFits(cfg, lat) && LeaseHeld(cfg, lat, w) && CanWork(lat, w, run, x)
    ensures Holds(w, run, InFlight(w.runs[run]))
  {
    var r := w.runs[run];
    assert w.clock < r.now + STALE_AFTER;
    assert r.batch[r.next] == InFlight(r);
  }

  /** No step of anyone else takes a row away from a run whose lease lasts. */
  lemma HoldKept(cfg: Config, lat: Latency, w: World, step: Step, run: RunId, id: RowId)
    requires LeaseFits(cfg, lat) && LeaseHeld(cfg, lat, w) && Enabled(cfg, lat, w, step)
    requires run in w.runs && w.runs[run].phase in {Looping, Dying} && Holds(w, run, id)
    requires Apply(cfg, lat, w, step).clock < w.runs[run].now + STALE_AFTER
    requires step != ReleaseRun(run)
    requires step.CommitRow? && step.run == run ==> id != InFlight(w.runs[run])
    ensures Holds(Apply(cfg, lat, w, step), run, id)
  {
    if step.CommitRow? { CommitTakesNoOther(cfg, lat, w, step.run, step.x, run, id); }
    ClaimUntouched(cfg, lat, w, step, id);
    assert run in Apply(cfg, lat, w, step).runs && Apply(cfg, lat, w, step).runs[run].now == w.runs[run].now;
  }

  /** A claimed row keeps its claim through every step but its own commit, its own release and a
      reap that finds it stale. */
  lemma ClaimUntouched(cfg: Config, lat: Latency, w: World, step: Step, id: RowId)
    requires Enabled(cfg, lat, w, step) && id in w.db.rows && id < w.db.nextRow && w.db.rows[id].status == Sending
    requires step.CommitRow? ==> InFlight(w.runs[step.run]) != id
    requires step.ReleaseRun? ==> !HeldBy(w.db.rows[id], step.run)
    requires step.ReapStale? ==> !Stale(w.db.rows[id], w.runs[step.run].now)
    ensures var row, rows' := w.db.rows[id], Apply(cfg, lat, w, step).db.rows;
            && id in rows' && rows'[id].status == Sending && rows'[id].dispatchAt == row.dispatchAt
            && rows'[id].claimedAt == row.claimedAt && rows'[id].claimedBy == row.claimedBy
  {
  }

  /** A commit touches only the row in flight, and no two runs hold one row. */
  lemma CommitTakesNoOther(cfg: Config, lat: Latency, w: World, other: RunId, x: Inputs, run: RunId, id: RowId)
    requires LeaseFits(cfg, lat) && LeaseHeld(cfg, lat, w) && Enabled(cfg, lat, w, CommitRow(other, x))
    requires run in w.runs && w.runs[run].phase in {Looping, Dying} && Holds(w, run, id)
    requires other == run ==> id != InFlight(w.runs[run])
    ensures id != InFlight(w.runs[other])
  {
    WorkHolds(cfg, lat, w, other, x);
  }

  lemma LeaseStep(cfg: Config, lat: Latency, w: World, step: Step)
    requires LeaseFits(cfg, lat) && LeaseHeld(cfg, lat, w) && Enabled(cfg, lat, w, step)
    ensures LeaseHeld(cfg, lat, Apply(cfg, lat, w, step))
  {
    var w' := Apply(cfg, lat, w, step);
    forall run | run in w'.runs
      ensures LeaseHeldBy(cfg, lat, w', run)
    {
      LeaseStepOf(cfg, lat, w, step, run);
    }
  }

  lemma LeaseStepOf(cfg: Config, lat: Latency, w: World, step: Step, run: RunId)
    requires LeaseFits(cfg, lat) && LeaseHeld(cfg, lat, w) && Enabled(cfg, lat, w, step)
    requires run in Apply(cfg, lat, w, step).runs
    ensures LeaseHeldBy(cfg, lat, Apply(cfg, lat, w, step), run)
  {
    var w' := Apply(cfg, lat, w, step);
    var r' := w'.runs[run];
    assert AllTimed(cfg, lat, w) by {
      assert forall other | other in w.runs :: LeaseHeldBy(cfg, lat, w, other);
    }
    RunStaysTimed(cfg, lat, w, step, run);
    var working := {Looping, Dying};
    if run in w.runs && w.runs[run].phase in working && r'.phase in working && w'.clock < r'.now + STALE_AFTER {
      forall k | r'.next <= k < |r'.batch|
        ensures Holds(w', run, r'.batch[k])
      {
        HoldKept(cfg, lat, w, step, run, w.runs[run].batch[k]);
      }
    }
  }

  lemma RunStaysTimed(cfg: Config, lat: Latency, w: World, step: Step, run: RunId)
    requires AllTimed(cfg, lat, w) && Enabled(cfg, lat, w, step)
    requires run in Apply(cfg, lat, w, step).runs
    ensures RunTimed(cfg, lat, Apply(cfg, lat, w, step).clock, Apply(cfg, lat, w, step).runs[run])
  {
  }

  ghost predicate AllTimed(cfg: Config, lat: Latency, w: World) {
    forall run | run in w.runs :: RunTimed(cfg, lat, w.clock, w.runs[run])
  }

  /** In every history each run's clock readings are in order. */
  lemma {:induction false} TimedAlways(cfg: Config, lat: Latency, t0: Time, steps: seq<Step>)
    requires Valid(cfg, lat, t0, steps)
    ensures AllTimed(cfg, lat, Exec(cfg, lat, t0, steps))
    decreases |steps|
  {
    if steps != [] {
      TimedAlways(cfg, lat, t0, Past(steps));
      var w, step := Exec(cfg, lat, t0, Past(steps)), Last(steps);
      forall run | run in Apply(cfg, lat, w, step).runs
        ensures RunTimed(cfg, lat, Apply(cfg, lat, w, step).clock, Apply(cfg, lat, w, step).runs[run])
      {
        RunStaysTimed(cfg, lat, w, step, run);
      }
    }
  }

  lemma {:induction false} LeaseAlways(cfg: Config, lat: Latency, t0: Time, steps: seq<Step>)
    requires LeaseFits(cfg, lat) && Valid(cfg, lat, t0, steps)
    ensures LeaseHeld(cfg, lat, Exec(cfg, lat, t0, steps))
    decreases |steps|
  {
    if steps != [] {
      LeaseAlways(cfg, lat, t0, Past(steps));
      LeaseStep(cfg, lat, Exec(cfg, lat, t0, Past(steps)), Last(steps));
    }
  }

  // ------------------------------------------------------------------ main results

  /** The steps that run process_row on the row in flight, committed or lost. */
  predicate Works(step: Step) { step.CommitRow? || step.LoseRow? }

  /** The row such a step of this history processes. */
  ghost function WorkedRow(cfg: Config, lat: Latency, t0: Time, steps: seq<Step>, i: nat): RowId
    requires Valid(cfg, lat, t0, steps) && i < |steps| && Works(steps[i])
  {
    StateAfter(cfg, lat, t0, steps, i);
    InFlight(StateAt(cfg, lat, t0, steps, i).runs[steps[i].run])
  }

  /** The i-th step gives SES a message for its row. */
  ghost predicate CallsAt(cfg: Config, lat: Latency, t0: Time, steps: seq<Step>, i: nat)
    requires Valid(cfg, lat, t0, steps) && i < |steps|
  {
    && Works(steps[i])
    && var rows := StateAt(cfg, lat, t0, steps, i).db.rows;
       var id := WorkedRow(cfg, lat, t0, steps, i);
       id in rows && CallsSes(rows[id], steps[i].x)
  }

  /** Every row a run processes is still SENDING and owned by that run, also when a crash or a
      failed commit loses what the processing did. */
  lemma LeaseSafety(cfg: Config, lat: Latency, t0: Time, steps: seq<Step>, i: nat)
    requires LeaseFits(cfg, lat) && Valid(cfg, lat, t0, steps) && i < |steps| && Works(steps[i])
    ensures steps[i].run in StateAt(cfg, lat, t0, steps, i).runs
    ensures Holds(StateAt(cfg, lat, t0, steps, i), steps[i].run, WorkedRow(cfg, lat, t0, steps, i))
  {
    StateAfter(cfg, lat, t0, steps, i);
    PrefixValid(cfg, lat, t0, steps, i);
    LeaseAlways(cfg, lat, t0, steps[..i]);
    WorkHolds(cfg, lat, StateAt(cfg, lat, t0, steps, i), steps[i].run, steps[i].x);
  }

  predicate Owner(w: World, id: RowId, run: RunId) { id in w.db.rows && w.db.rows[id].claimedBy == Some(run) }

  /** Ownership passes to a run only by that run's claim. */
  lemma {:induction false} OwnedByClaim(cfg: Config, lat: Latency, t0: Time, steps: seq<Step>, i: nat, j: nat,
          id: RowId, run: RunId)
    requires Valid(cfg, lat, t0, steps) && i <= j <= |steps|
    requires !Owner(StateAt(cfg, lat, t0, steps, i), id, run) && Owner(StateAt(cfg, lat, t0, steps, j), id, run)
    ensures exists m | i <= m < j :: steps[m].ClaimDue? && steps[m].run == run && id in steps[m].batch
    decreases j - i
  {
    StateAfter(cfg, lat, t0, steps, j - 1);
    if Owner(StateAt(cfg, lat, t0, steps, j - 1), id, run) {
      OwnedByClaim(cfg, lat, t0, steps, i, j - 1, id, run);
    } else {
      OwnerStep(cfg, lat, StateAt(cfg, lat, t0, steps, j - 1), steps[j - 1], id, run);
    }
  }

  lemma OwnerStep(cfg: Config, lat: Latency, w: World, step: Step, id: RowId, run: RunId)
    requires Enabled(cfg, lat, w, step) && !Owner(w, id, run) && Owner(Apply(cfg, lat, w, step), id, run)
    ensures step.ClaimDue? && step.run == run && id in step.batch
  {
    if step.CommitRow? && id in w.db.rows { ProcessNamesNobody(cfg, w.db.rows[id], step.x); }
  }

  lemma ProcessNamesNobody(cfg: Config, row: Row, x: Inputs)
    ensures Process(cfg, row, x).row.claimedBy in {None, row.claimedBy}
  {
  }

  /** Once past a row, a run's position stays past it and its batch does not change, and a run
      that has left its loop does not come back to it. */
  lemma {:induction false} PositionAdvances(cfg: Config, lat: Latency, t0: Time, steps: seq<Step>, i: nat, j: nat,
          run: RunId)
    requires Valid(cfg, lat, t0, steps) && i <= j <= |steps|
    requires run in StateAt(cfg, lat, t0, steps, i).runs
    requires StateAt(cfg, lat, t0, steps, i).runs[run].phase !in {Started, HasReaped}
    ensures var r, r' := StateAt(cfg, lat, t0, steps, i).runs[run], StateAt(cfg, lat, t0, steps, j).runs;
            && run in r' && r'[run].batch == r.batch && r'[run].next >= r.next
            && r'[run].phase !in {Started, HasReaped} && (r.phase != Looping ==> r'[run].phase != Looping)
    decreases j - i
  {
    if i < j {
      PositionAdvances(cfg, lat, t0, steps, i, j - 1, run);
      StateAfter(cfg, lat, t0, steps, j - 1);
    }
  }

  /** No claim is processed twice: not by its own run, and a second run that processes the row
      has claimed it afresh in between. */
  lemma OneProcessingPerClaim(cfg: Config, lat: Latency, t0: Time, steps: seq<Step>, i: nat, j: nat)
    requires LeaseFits(cfg, lat) && Valid(cfg, lat, t0, steps) && i < j < |steps|
    requires Works(steps[i]) && Works(steps[j])
    requires WorkedRow(cfg, lat, t0, steps, i) == WorkedRow(cfg, lat, t0, steps, j)
    ensures steps[i].run != steps[j].run
    ensures exists m | i < m < j ::
              && steps[m].ClaimDue? && steps[m].run == steps[j].run
              && WorkedRow(cfg, lat, t0, steps, j) in steps[m].batch
  {
    LeaseSafety(cfg, lat, t0, steps, i);
    LeaseSafety(cfg, lat, t0, steps, j);
    StateAfter(cfg, lat, t0, steps, i);
    StateAfter(cfg, lat, t0, steps, j);
    if steps[i].run == steps[j].run {
      PositionAdvances(cfg, lat, t0, steps, i + 1, j, steps[i].run);
      PrefixValid(cfg, lat, t0, steps, j);
      LeaseAlways(cfg, lat, t0, steps[..j]);
      assert false;
    }
    OwnedByClaim(cfg, lat, t0, steps, i, j, WorkedRow(cfg, lat, t0, steps, j), steps[j].run);
  }

  // ----------------------------------------------------- the timing is also necessary

  const REQUEST: Request := Request("finalized", "a@b", Some(1), None, None, None, None)

  function Sends(at: Time): Inputs {
    Inputs(true, true, true, PLAIN, at, RenderOk(Rendered("subject", "body")), false, true, at, Accepted("id"), at)
  }

  /** A run that dawdles to the end of what the latencies allow, and a second run that starts
      the moment the first one's claim is old enough to reap. */
  function Overrun(cfg: Config, lat: Latency): seq<Step>
    requires lat.claim >= 0 && cfg.maxSeconds >= 0 && lat.row >= 0
  {
    var end := lat.claim + cfg.maxSeconds + lat.row;
    [Insert(REQUEST, PLAIN), StartRun(1), ReapStale(1), Tick(lat.claim), ClaimDue(1, [0]), Tick(cfg.maxSeconds),
     BeginRow(1), Tick(lat.row), StartRun(2), ReapStale(2), ClaimDue(2, [0]), BeginRow(2),
     CommitRow(2, Sends(end)), CommitRow(1, Sends(end))]
  }

  /** The states the overrun goes through. */
  function Scene(cfg: Config, lat: Latency, i: nat): World
    requires i <= 13
  {
    var row := NewRow(REQUEST, PLAIN, 0);
    var mid := lat.claim + cfg.maxSeconds;
    var end := mid + lat.row;
    var queued := Db(map[0 := row], 1, [], 0, []);
    var first := Db(map[0 := Claimed(row, 1, 0)], 1, [], 0, []);
    var reaped := Db(map[0 := row.(attempts := 1)], 1, [], 0, []);
    var second := Db(map[0 := Claimed(row.(attempts := 1), 2, end)], 1, [], 0, []);
    var run1 := Run(0, Looping, lat.claim, [0], 0, Some(mid));
    var run2 := Run(end, Looping, end, [0], 0, Some(end));
    if i == 0 then Genesis(0)
    else if i == 1 then World(0, queued, map[])
    else if i == 2 then World(0, queued, map[1 := Run(0, Started, 0, [], 0, None)])
    else if i == 3 then World(0, queued, map[1 := Run(0, HasReaped, 0, [], 0, None)])
    else if i == 4 then World(lat.claim, queued, map[1 := Run(0, HasReaped, 0, [], 0, None)])
    else if i == 5 then World(lat.claim, first, map[1 := run1.(begun := None)])
    else if i == 6 then World(mid, first, map[1 := run1.(begun := None)])
    else if i == 7 then World(mid, first, map[1 := run1])
    else if i == 8 then World(end, first, map[1 := run1])
    else if i == 9 then World(end, first, map[1 := run1, 2 := Run(end, Started, end, [], 0, None)])
    else if i == 10 then World(end, reaped, map[1 := run1, 2 := Run(end, HasReaped, end, [], 0, None)])
    else if i == 11 then World(end, second, map[1 := run1, 2 := run2.(begun := None)])
    else if i == 12 then World(end, second, map[1 := run1, 2 := run2])
    else World(end, ProcessRow(cfg, second, 0, Sends(end)), map[1 := run1, 2 := run2.(next := 1, begun := None)])
  }

  predicate Slow(cfg: Config, lat: Latency) {
    cfg.Positive() && lat.claim >= 0 && lat.row >= 0 && !LeaseFits(cfg, lat)
  }

  ghost predicate SceneFollows(cfg: Config, lat: Latency, i: nat)
    requires Slow(cfg, lat) && i <= 12
  {
    && Enabled(cfg, lat, Scene(cfg, lat, i), Overrun(cfg, lat)[i])
    && Apply(cfg, lat, Scene(cfg, lat, i), Overrun(cfg, lat)[i]) == Scene(cfg, lat, i + 1)
  }

  lemma FirstRunClaims(cfg: Config, lat: Latency, i: nat)
    requires Slow(cfg, lat) && i < 5
    ensures SceneFollows(cfg, lat, i)
  {
    if i == 4 {
      FirstClaim(cfg, lat);
    } else if i == 0 {
      FirstInsert(cfg, lat);
    }
  }

  lemma FirstInsert(cfg: Config, lat: Latency)
    requires Slow(cfg, lat)
    ensures SceneFollows(cfg, lat, 0)
  {
  }

  lemma FirstClaim(cfg: Config, lat: Latency)
    requires Slow(cfg, lat)
    ensures SceneFollows(cfg, lat, 4)
  {
  }

  lemma FirstRunDawdles(cfg: Config, lat: Latency, i: nat)
    requires Slow(cfg, lat) && 5 <= i < 9
    ensures SceneFollows(cfg, lat, i)
  {
  }

  lemma SecondRunReaps(cfg: Config, lat: Latency)
    requires Slow(cfg, lat)
    ensures SceneFollows(cfg, lat, 9)
  {
  }

  lemma SecondRunClaims(cfg: Config, lat: Latency)
    requires Slow(cfg, lat)
    ensures SceneFollows(cfg, lat, 10)
  {
  }

  lemma SecondRunSends(cfg: Config, lat: Latency, i: nat)
    requires Slow(cfg, lat) && 11 <= i <= 12
    ensures SceneFollows(cfg, lat, i)
  {
  }

  lemma SceneStep(cfg: Config, lat: Latency, i: nat)
    requires Slow(cfg, lat) && i <= 12
    ensures SceneFollows(cfg, lat, i)
  {
    if i < 5 {
      FirstRunClaims(cfg, lat, i);
    } else if i < 9 {
      FirstRunDawdles(cfg, lat, i);
    } else if i == 9 {
      SecondRunReaps(cfg, lat);
    } else if i == 10 {
      SecondRunClaims(cfg, lat);
    } else {
      SecondRunSends(cfg, lat, i);
    }
  }

  lemma {:induction false} OverrunReaches(cfg: Config, lat: Latency, i: nat)
    requires Slow(cfg, lat) && i <= 13
    ensures Valid(cfg, lat, 0, Overrun(cfg, lat)[..i])
    ensures Exec(cfg, lat, 0, Overrun(cfg, lat)[..i]) == Scene(cfg, lat, i)
  {
    if i > 0 {
      OverrunReaches(cfg, lat, i - 1);
      SceneStep(cfg, lat, i - 1);
      Reach(cfg, lat, Overrun(cfg, lat), i - 1, Scene(cfg, lat, i - 1));
    }
  }

  /** Extend, along a given list of steps. */
  lemma Reach(cfg: Config, lat: Latency, steps: seq<Step>, i: nat, w: World)
    requires i < |steps| && Valid(cfg, lat, 0, steps[..i]) && Exec(cfg, lat, 0, steps[..i]) == w
    requires Enabled(cfg, lat, w, steps[i])
    ensures Valid(cfg, lat, 0, steps[..i + 1])
    ensures Exec(cfg, lat, 0, steps[..i + 1]) == Apply(cfg, lat, w, steps[i])
  {
    Extend(cfg, lat, 0, steps[..i], w, steps[i]);
    assert steps[..i] + [steps[i]] == steps[..i + 1];
  }

  /** Outside the timing, one email goes out twice: both runs call SES for the same row, and
      the first one no longer holds it. */
  lemma OverrunSendsTwice(cfg: Config, lat: Latency)
    requires Slow(cfg, lat)
    ensures Valid(cfg, lat, 0, Overrun(cfg, lat))
    ensures forall i | 12 <= i < 14 ::
              && WorkedRow(cfg, lat, 0, Overrun(cfg, lat), i) == 0
              && var w := StateAt(cfg, lat, 0, Overrun(cfg, lat), i);
                 0 in w.db.rows && CallsSes(w.db.rows[0], Overrun(cfg, lat)[i].x)
    ensures 1 in StateAt(cfg, lat, 0, Overrun(cfg, lat), 13).runs
    ensures !Holds(StateAt(cfg, lat, 0, Overrun(cfg, lat), 13), 1, 0)
  {
    var steps := Overrun(cfg, lat);
    OverrunReaches(cfg, lat, 12);
    OverrunReaches(cfg, lat, 13);
    LastScenes(cfg, lat);
    Reach(cfg, lat, steps, 13, Scene(cfg, lat, 13));
    assert steps[..14] == steps;
  }

  lemma LastScenes(cfg: Config, lat: Latency)
    requires Slow(cfg, lat)
    ensures forall i | 12 <= i < 14 ::
              var w := Scene(cfg, lat, i);
              && Enabled(cfg, lat, w, Overrun(cfg, lat)[i])
              && 0 in w.db.rows && CallsSes(w.db.rows[0], Overrun(cfg, lat)[i].x)
              && InFlight(w.runs[Overrun(cfg, lat)[i].run]) == 0
    ensures 1 in Scene(cfg, lat, 13).runs && !Holds(Scene(cfg, lat, 13), 1, 0)
  {
  }

  /** In every history of these latencies, a run holds each row it processes. */
  ghost predicate AlwaysHeld(cfg: Config, lat: Latency, t0: Time, steps: seq<Step>)
    requires Valid(cfg, lat, t0, steps)
  {
    forall i | 0 <= i < |steps| && Works(steps[i]) ::
      var w := StateAt(cfg, lat, t0, steps, i);
      steps[i].run in w.runs && Holds(w, steps[i].run, WorkedRow(cfg, lat, t0, steps, i))
  }

  /** The lease holds in every history exactly when claim latency, loop time and one row's
      processing together stay under the thirty minutes after which a claim is reaped. */
  lemma LeaseExact(cfg: Config, lat: Latency)
    requires cfg.Positive() && lat.claim >= 0 && lat.row >= 0
    ensures LeaseFits(cfg, lat) <==>
            forall t0: Time, steps: seq<Step> | Valid(cfg, lat, t0, steps) :: AlwaysHeld(cfg, lat, t0, steps)
  {
    if LeaseFits(cfg, lat) {
      forall t0: Time, steps: seq<Step> | Valid(cfg, lat, t0, steps)
        ensures AlwaysHeld(cfg, lat, t0, steps)
      {
        forall i | 0 <= i < |steps| && Works(steps[i])
          ensures var w := StateAt(cfg, lat, t0, steps, i);
                  steps[i].run in w.runs && Holds(w, steps[i].run, WorkedRow(cfg, lat, t0, steps, i))
        {
          LeaseSafety(cfg, lat, t0, steps, i);
        }
      }
    } else {
      OverrunSendsTwice(cfg, lat);
      var steps := Overrun(cfg, lat);
      assert Works(steps[13]);
      assert !AlwaysHeld(cfg, lat, 0, steps);
    }
  }
}
