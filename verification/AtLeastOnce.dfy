/** How often one row's message reaches SES: exactly which steps can be followed by another call,
    within the lease and with no requeue. */
module AtLeastOnce {
  import opened Basics
  import opened Templates
  import opened Outbox
  import opened World
  import opened Lease
  import opened Histories
  import opened Guarantees
  import opened Scenarios
  import L = RowLife

  /** The i-th step has SES take the message of its row. */
  ghost predicate TakesAt(cfg: Config, lat: Latency, t0: Time, steps: seq<Step>, i: nat)
    requires Valid(cfg, lat, t0, steps) && i < |steps|
  {
    && CallsAt(cfg, lat, t0, steps, i)
    && SesTakes(StateAt(cfg, lat, t0, steps, i).db.rows[WorkedRow(cfg, lat, t0, steps, i)], steps[i].x)
  }

  /** What the step did is lost before its commit, or it commits the row to another try. */
  ghost predicate LeavesOpen(cfg: Config, lat: Latency, t0: Time, steps: seq<Step>, i: nat)
    requires Valid(cfg, lat, t0, steps) && i < |steps| && CallsAt(cfg, lat, t0, steps, i)
  {
    || steps[i].LoseRow?
    || TriesAgain(cfg, StateAt(cfg, lat, t0, steps, i).db.rows[WorkedRow(cfg, lat, t0, steps, i)], steps[i].x)
  }

  // ---------------------------------------------------------------- a second call needs it

  lemma CallEnds(cfg: Config, row: Row, x: Inputs)
    requires CallsSes(row, x) && !TriesAgain(cfg, row, x)
    ensures Process(cfg, row, x).row.status.Terminal()
  {
    L.ProcessCases(cfg, row, x);
    if x.ses.Rejected? { assert !Refused(cfg, row.(blockedSince := None), x).row.status.RenderBlocked?; }
  }

  /** Within the lease and short of a requeue, SES is called again for a row only after a call
      that was lost or left the row another try. */
  lemma SecondCallNeeds(cfg: Config, lat: Latency, t0: Time, steps: seq<Step>, i: nat, j: nat)
    requires LeaseFits(cfg, lat) && Valid(cfg, lat, t0, steps) && i < j < |steps|
    requires CallsAt(cfg, lat, t0, steps, i) && CallsAt(cfg, lat, t0, steps, j)
    requires WorkedRow(cfg, lat, t0, steps, i) == WorkedRow(cfg, lat, t0, steps, j)
    requires forall m | i < m < j :: steps[m] != RequeueRow(WorkedRow(cfg, lat, t0, steps, i))
    ensures LeavesOpen(cfg, lat, t0, steps, i)
  {
    if !LeavesOpen(cfg, lat, t0, steps, i) {
      var id := WorkedRow(cfg, lat, t0, steps, i);
      StateAfter(cfg, lat, t0, steps, i);
      CallEnds(cfg, StateAt(cfg, lat, t0, steps, i).db.rows[id], steps[i].x);
      EndedStays(cfg, lat, t0, steps, i + 1, j, id);
      LeaseSafety(cfg, lat, t0, steps, j);
      assert false;
    }
  }

  // ------------------------------------------------------------- and every one can follow

  lemma {:induction false} FreshRun(runs: set<RunId>) returns (run: RunId)
    ensures forall r | r in runs :: r < run
    decreases |runs|
  {
    if runs == {} {
      run := 0;
    } else {
      var r :| r in runs;
      var below := FreshRun(runs - {r});
      run := if below > r then below else r + 1;
      assert forall q | q in runs :: q == r || q in runs - {r};
    }
  }

  /** The same surroundings, with no closing. */
  function Reopened(c: Catalog): Catalog {
    if c.override.None? then c else c.(override := Some(c.override.value.(windowEnd := None)))
  }

  function Later(x: Inputs, at: Time): Inputs {
    x.(catalog := Reopened(x.catalog), checkedAt := at, calledAt := at, ses := Accepted("id"), doneAt := at)
  }

  lemma CallsLater(row: Row, row': Row, x: Inputs, at: Time)
    requires CallsSes(row, x) && row'.templateKey == row.templateKey && row'.workItem == row.workItem
    requires row'.event == row.event && row'.department == row.department
    ensures CallsSes(row', Later(x, at)) && SesTakes(row', Later(x, at))
  {
  }

  predicate SameReferences(a: Row, b: Row) {
    a.templateKey == b.templateKey && a.workItem == b.workItem && a.event == b.event && a.department == b.department
  }

  /** A row that is left another try is queued again. */
  lemma TriedAgain(cfg: Config, row: Row, x: Inputs)
    requires TriesAgain(cfg, row, x)
    ensures var row' := Process(cfg, row, x).row; row'.status == Queued && SameReferences(row', row)
  {
    assert Refused(cfg, row.(blockedSince := None), x).row.status == Queued;
    assert SameReferences(Refused(cfg, row.(blockedSince := None), x).row, row);
  }

  /** After an open call the row waits in the queue, or in the hands of a run that lost it. */
  lemma OpenRow(cfg: Config, lat: Latency, t0: Time, steps: seq<Step>) returns (at: Time)
    requires LeaseFits(cfg, lat) && Valid(cfg, lat, t0, steps) && steps != []
    requires CallsAt(cfg, lat, t0, steps, |steps| - 1) && LeavesOpen(cfg, lat, t0, steps, |steps| - 1)
    ensures var w, id := Exec(cfg, lat, t0, steps), WorkedRow(cfg, lat, t0, steps, |steps| - 1);
            && at >= w.clock && id in w.db.rows && Due(Reap(w.db, at).rows[id], at)
            && SameReferences(Reap(w.db, at).rows[id], StateAt(cfg, lat, t0, steps, |steps| - 1).db.rows[id])
  {
    var i := |steps| - 1;
    var id := WorkedRow(cfg, lat, t0, steps, i);
    StateAfter(cfg, lat, t0, steps, i);
    LeaseSafety(cfg, lat, t0, steps, i);
    assert steps[..|steps|] == steps;
    var w := Exec(cfg, lat, t0, steps);
    var row := StateAt(cfg, lat, t0, steps, i).db.rows[id];
    if steps[i].LoseRow? {
      PrefixValid(cfg, lat, t0, steps, i);
      LeaseAlways(cfg, lat, t0, steps[..i]);
      at := w.clock + STALE_AFTER;
      ReapedLost(row, at);
    } else {
      TriedAgain(cfg, row, steps[i].x);
      at := if w.db.rows[id].dispatchAt > w.clock then w.db.rows[id].dispatchAt else w.clock;
    }
  }

  /** A claim at least thirty minutes old is reaped, and the row is due. */
  lemma ReapedLost(row: Row, at: Time)
    requires row.status == Sending && row.claimedAt.Some? && row.claimedAt.value <= at - STALE_AFTER
    requires row.dispatchAt <= at
    ensures Stale(row, at) && Due(Reaped(row), at) && SameReferences(Reaped(row), row)
  {
  }

  /** Some continuation with no requeue has SES take the message of the last step's row. */
  ghost predicate TakenAgain(cfg: Config, lat: Latency, t0: Time, steps: seq<Step>, steps': seq<Step>, j: nat)
    requires Valid(cfg, lat, t0, steps) && steps != [] && CallsAt(cfg, lat, t0, steps, |steps| - 1)
  {
    && steps <= steps' && Valid(cfg, lat, t0, steps') && |steps| <= j < |steps'|
    && TakesAt(cfg, lat, t0, steps', j)
    && WorkedRow(cfg, lat, t0, steps', j) == WorkedRow(cfg, lat, t0, steps, |steps| - 1)
    && Requeueless(steps'[|steps|..])
  }

  lemma TakeAgain(cfg: Config, lat: Latency, t0: Time, steps: seq<Step>) returns (steps': seq<Step>, j: nat)
    requires Roomy(cfg, lat) && LeaseFits(cfg, lat) && Valid(cfg, lat, t0, steps) && steps != []
    requires CallsAt(cfg, lat, t0, steps, |steps| - 1) && LeavesOpen(cfg, lat, t0, steps, |steps| - 1)
    ensures TakenAgain(cfg, lat, t0, steps, steps', j) && steps'[j].CommitRow?
  {
    var i := |steps| - 1;
    var id := WorkedRow(cfg, lat, t0, steps, i);
    var w := Exec(cfg, lat, t0, steps);
    EveryRowHasItsStory(cfg, lat, t0, steps, id);
    var at := OpenRow(cfg, lat, t0, steps);
    var run := FreshRun(w.runs.Keys);
    var before, w' := WorkAt(cfg, lat, t0, steps, w, id, run, at);
    CallsLater(StateAt(cfg, lat, t0, steps, i).db.rows[id], w'.db.rows[id], steps[i].x, at);
    j := |before|;
    steps' := TakeStep(cfg, lat, t0, before, w', CommitRow(run, Later(steps[i].x, at)));
    Passes(cfg, lat, t0, before, w', steps');
    assert steps'[|steps|..] == before[|steps|..] + [CommitRow(run, Later(steps[i].x, at))];
  }

  /** Wait, sweep, claim the row and begin it. */
  lemma WorkAt(cfg: Config, lat: Latency, t0: Time, steps: seq<Step>, w: World, id: RowId, run: RunId, at: Time)
    returns (steps': seq<Step>, w': World)
    requires Roomy(cfg, lat) && Leads(cfg, lat, t0, steps, w) && at >= w.clock && run !in w.runs
    requires id in w.db.rows && Due(Reap(w.db, at).rows[id], at) && StoryOf(cfg, lat, t0, steps, id).Story?
    ensures steps <= steps' && Requeueless(steps'[|steps|..]) && Leads(cfg, lat, t0, steps', w')
    ensures w'.clock == at && run in w'.runs && w'.runs[run] == Run(at, Looping, at, [id], 0, Some(at))
    ensures id in w'.db.rows && w'.db.rows[id] == Claimed(Reap(w.db, at).rows[id], run, at)
  {
    var s := StoryOf(cfg, lat, t0, steps, id);
    steps' := Wait(cfg, lat, t0, steps, w, id, s, at);
    var longer, s' := Work(cfg, lat, t0, steps', w.(clock := at), id, s, run);
    w' := Working(w.(clock := at), run, id);
    assert longer[|steps|..] == steps'[|steps|..] + longer[|steps'|..];
    steps' := longer;
  }

  // --------------------------------------------------------------------- main results

  /** Within the lease, and for every history that ends with a call to SES: its message can be
      taken again without a requeue exactly when that call was lost, halted the account, or was
      refused for a reason that is retried with attempts to spare. */
  lemma TakenAgainExactly(cfg: Config, lat: Latency, t0: Time, steps: seq<Step>)
    requires Roomy(cfg, lat) && LeaseFits(cfg, lat) && Valid(cfg, lat, t0, steps) && steps != []
    requires CallsAt(cfg, lat, t0, steps, |steps| - 1)
    ensures LeavesOpen(cfg, lat, t0, steps, |steps| - 1) <==>
            exists steps': seq<Step>, j: nat :: TakenAgain(cfg, lat, t0, steps, steps', j)
  {
    if LeavesOpen(cfg, lat, t0, steps, |steps| - 1) {
      var steps', j := TakeAgain(cfg, lat, t0, steps);
    }
    forall steps': seq<Step>, j: nat | TakenAgain(cfg, lat, t0, steps, steps', j)
      ensures LeavesOpen(cfg, lat, t0, steps, |steps| - 1)
    {
      NeededBefore(cfg, lat, t0, steps, steps', j);
    }
  }

  lemma NeededBefore(cfg: Config, lat: Latency, t0: Time, steps: seq<Step>, steps': seq<Step>, j: nat)
    requires LeaseFits(cfg, lat) && Valid(cfg, lat, t0, steps) && steps != []
    requires CallsAt(cfg, lat, t0, steps, |steps| - 1) && TakenAgain(cfg, lat, t0, steps, steps', j)
    ensures LeavesOpen(cfg, lat, t0, steps, |steps| - 1)
  {
    var i := |steps| - 1;
    assert steps'[..i] == steps[..i] && steps'[i] == steps[i];
    forall m | i < m < j
      ensures steps'[m] != RequeueRow(WorkedRow(cfg, lat, t0, steps', i))
    {
      assert steps'[m] == steps'[|steps|..][m - |steps|];
    }
    SecondCallNeeds(cfg, lat, t0, steps', i, j);
  }

  // ---------------------------------------------------------- the two ways it happens

  /** A row claimed and begun, at the start of a history. */
  lemma FirstTry(cfg: Config, lat: Latency, t0: Time) returns (steps: seq<Step>, w: World)
    requires Roomy(cfg, lat)
    ensures Leads(cfg, lat, t0, steps, w) && Requeueless(steps)
    ensures w == Working(Fresh(t0, REQUEST, PLAIN), 1, 0)
    ensures CanWork(lat, w, 1, Sends(t0)) && InFlight(w.runs[1]) == 0 && CallsSes(w.db.rows[0], Sends(t0))
    ensures w.db.rows[0].attempts == 0
  {
    var s := Story(NewRow(REQUEST, PLAIN, t0), None, []);
    steps := Queue(cfg, lat, t0, REQUEST, PLAIN);
    w := Working(Fresh(t0, REQUEST, PLAIN), 1, 0);
    steps, s := Work(cfg, lat, t0, steps, Fresh(t0, REQUEST, PLAIN), 0, s, 1);
  }

  ghost predicate TakenTwice(cfg: Config, lat: Latency, t0: Time, steps: seq<Step>, i: nat, j: nat) {
    && Valid(cfg, lat, t0, steps) && i < j < |steps| && steps[j].CommitRow? && Requeueless(steps)
    && TakesAt(cfg, lat, t0, steps, i) && TakesAt(cfg, lat, t0, steps, j)
    && WorkedRow(cfg, lat, t0, steps, i) == WorkedRow(cfg, lat, t0, steps, j)
  }

  /** From a first call that is left open, on. */
  lemma ThenAgain(cfg: Config, lat: Latency, t0: Time, first: seq<Step>, w: World, step: Step)
    returns (steps: seq<Step>, j: nat)
    requires Roomy(cfg, lat) && LeaseFits(cfg, lat) && Leads(cfg, lat, t0, first, w) && Requeueless(first)
    requires Works(step) && step.run == 1 && CanWork(lat, w, 1, step.x) && InFlight(w.runs[1]) == 0
    requires SesTakes(w.db.rows[0], step.x) && (step.LoseRow? || TriesAgain(cfg, w.db.rows[0], step.x))
    ensures first + [step] <= steps && TakenTwice(cfg, lat, t0, steps, |first|, j)
  {
    var past := TakeStep(cfg, lat, t0, first, w, step);
    assert past[..|first|] == first;
    Passes(cfg, lat, t0, first, w, past);
    steps, j := TakeAgain(cfg, lat, t0, past);
    Passes(cfg, lat, t0, first, w, steps);
    assert steps == past + steps[|past|..];
  }

  /** A crash between SES taking the message and the commit, in a history that keeps the lease
      and requeues nothing. */
  lemma AcceptedTwice(cfg: Config, lat: Latency, t0: Time) returns (steps: seq<Step>, i: nat, j: nat)
    requires Roomy(cfg, lat) && LeaseFits(cfg, lat)
    ensures TakenTwice(cfg, lat, t0, steps, i, j) && steps[i].LoseRow? && steps[i].x.ses.Accepted?
  {
    var first, w := FirstTry(cfg, lat, t0);
    i := |first|;
    steps, j := ThenAgain(cfg, lat, t0, first, w, LoseRow(1, Sends(t0)));
    assert steps[i] == (first + [LoseRow(1, Sends(t0))])[i];
  }

  function TimesOut(at: Time): Inputs { Sends(at).(ses := Rejected(true, Some("Read timeout"), None)) }

  /** SES takes the message but its answer is lost: both processings are committed, no claim is
      lost, and the message goes out twice. */
  lemma TimedOutTwice(cfg: Config, lat: Latency, t0: Time) returns (steps: seq<Step>, i: nat, j: nat)
    requires Roomy(cfg, lat) && LeaseFits(cfg, lat) && cfg.maxAttempts > 1
    ensures TakenTwice(cfg, lat, t0, steps, i, j) && steps[i].CommitRow? && steps[i].x.ses.Rejected?
  {
    var first, w := FirstTry(cfg, lat, t0);
    i := |first|;
    steps, j := ThenAgain(cfg, lat, t0, first, w, CommitRow(1, TimesOut(t0)));
    assert steps[i] == (first + [CommitRow(1, TimesOut(t0))])[i];
  }

  // ------------------------------------------------------------- losses have no bound

  function LostCount(steps: seq<Step>): nat {
    if steps == [] then 0 else LostCount(Past(steps)) + if Last(steps).LoseRow? then 1 else 0
  }

  lemma {:induction false} LostCountGrows(steps: seq<Step>, more: seq<Step>)
    ensures LostCount(steps + more) >= LostCount(steps)
  {
    if more == [] {
      assert steps + more == steps;
    } else {
      LostCountGrows(steps, Past(more));
      assert Past(steps + more) == steps + Past(more);
    }
  }

  /** A run calls SES for the row, loses what it did and releases the row: the tables are as
      they were. */
  lemma LoseOnce(cfg: Config, lat: Latency, t0: Time, steps: seq<Step>, w: World)
    returns (steps': seq<Step>, w': World)
    requires Roomy(cfg, lat) && Leads(cfg, lat, t0, steps, w)
    requires w.clock == t0 && w.db == Fresh(t0, REQUEST, PLAIN).db
    ensures Leads(cfg, lat, t0, steps', w') && w'.clock == t0 && w'.db == w.db
    ensures LostCount(steps') > LostCount(steps)
  {
    EveryRowHasItsStory(cfg, lat, t0, steps, 0);
    var run := FreshRun(w.runs.Keys);
    var begun, s := Work(cfg, lat, t0, steps, w, 0, StoryOf(cfg, lat, t0, steps, 0), run);
    assert begun == steps + begun[|steps|..];
    LostCountGrows(steps, begun[|steps|..]);
    steps', w' := LoseAndRelease(cfg, lat, t0, begun, w, run);
  }

  lemma LoseAndRelease(cfg: Config, lat: Latency, t0: Time, begun: seq<Step>, w: World, run: RunId)
    returns (steps': seq<Step>, w': World)
    requires Roomy(cfg, lat) && Leads(cfg, lat, t0, begun, Working(w, run, 0))
    requires w.clock == t0 && w.db == Fresh(t0, REQUEST, PLAIN).db
    ensures Leads(cfg, lat, t0, steps', w') && w'.clock == t0 && w'.db == w.db
    ensures LostCount(steps') == LostCount(begun) + 1
  {
    var w1 := Working(w, run, 0);
    FreshWorking(lat, t0, w, run);
    var lost := TakeStep(cfg, lat, t0, begun, w1, LoseRow(run, Sends(t0)));
    var w2 := Apply(cfg, lat, w1, LoseRow(run, Sends(t0)));
    steps' := TakeStep(cfg, lat, t0, lost, w2, ReleaseRun(run));
    w' := Apply(cfg, lat, w2, ReleaseRun(run));
    assert Past(lost) == begun && Past(steps') == lost;
  }

  lemma FreshWorking(lat: Latency, t0: Time, w: World, run: RunId)
    requires lat.row >= 0 && w.clock == t0 && w.db == Fresh(t0, REQUEST, PLAIN).db
    ensures CanWork(lat, Working(w, run, 0), run, Sends(t0)) && Release(Working(w, run, 0).db, run) == w.db
  {
    assert Release(Working(w, run, 0).db, run).rows == w.db.rows;
  }

  /** Lost processings are charged to nobody: any number of them can call SES for one row and
      leave the tables, attempt count included, as the enqueue left them. */
  lemma {:induction false} LostWithoutBound(cfg: Config, lat: Latency, t0: Time, n: nat)
    returns (steps: seq<Step>, w: World)
    requires Roomy(cfg, lat)
    ensures Leads(cfg, lat, t0, steps, w) && LostCount(steps) >= n
    ensures w.clock == t0 && w.db == Fresh(t0, REQUEST, PLAIN).db
  {
    if n == 0 {
      steps := Queue(cfg, lat, t0, REQUEST, PLAIN);
      w := Fresh(t0, REQUEST, PLAIN);
    } else {
      steps, w := LostWithoutBound(cfg, lat, t0, n - 1);
      steps, w := LoseOnce(cfg, lat, t0, steps, w);
    }
  }
}
