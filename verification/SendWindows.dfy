/** Send windows over whole histories, timely or not: how early and how late SES can be called
    for a row, whether or not what the call led to is ever committed. */
module SendWindows {
  import opened Basics
  import opened Templates
  import opened Outbox
  import opened World
  import opened Lease
  import opened Histories
  import opened Scenarios
  import L = RowLife

  // ------------------------------------------------------------ what the opening keeps

  /** The row is dispatched, and every run that ever claimed it started, no earlier than the
      opening. */
  ghost predicate OpeningHeld(w: World, id: RowId, event: Option<int>, opens: Option<Time>) {
    && (id in w.db.rows ==>
          && w.db.rows[id].event == event
          && (opens.Some? ==> w.db.rows[id].dispatchAt >= opens.value))
    && (opens.Some? ==> forall run | run in w.runs && id in w.runs[run].batch :: w.runs[run].now >= opens.value)
  }

  ghost predicate BatchesKnown(w: World) {
    && (forall id | id in w.db.rows :: id < w.db.nextRow)
    && (forall run, id | run in w.runs && id in w.runs[run].batch :: id < w.db.nextRow)
  }

  lemma {:induction false} BatchesAlwaysKnown(cfg: Config, lat: Latency, t0: Time, steps: seq<Step>)
    requires Valid(cfg, lat, t0, steps)
    ensures BatchesKnown(Exec(cfg, lat, t0, steps))
    decreases |steps|
  {
    if steps != [] {
      BatchesAlwaysKnown(cfg, lat, t0, Past(steps));
      BatchesStep(cfg, lat, Exec(cfg, lat, t0, Past(steps)), Last(steps));
    }
  }

  lemma BatchesStep(cfg: Config, lat: Latency, w: World, step: Step)
    requires Enabled(cfg, lat, w, step) && BatchesKnown(w)
    ensures BatchesKnown(Apply(cfg, lat, w, step))
  {
    var w' := Apply(cfg, lat, w, step);
    IdsGrow(cfg, lat, w, step);
    forall id | id in w'.db.rows
      ensures id < w'.db.nextRow
    {
      if id !in w.db.rows { RowStaysGone(cfg, lat, w, step, id); }
    }
    forall run, id | run in w'.runs && id in w'.runs[run].batch
      ensures id < w'.db.nextRow
    {
      BatchGrows(cfg, lat, w, step, run, id);
    }
  }

  /** A run's batch holds what it held before, or what it claims now. */
  lemma BatchGrows(cfg: Config, lat: Latency, w: World, step: Step, run: RunId, id: RowId)
    requires Enabled(cfg, lat, w, step)
    requires run in Apply(cfg, lat, w, step).runs && id in Apply(cfg, lat, w, step).runs[run].batch
    ensures || (run in w.runs && id in w.runs[run].batch && Apply(cfg, lat, w, step).runs[run].now == w.runs[run].now)
            || (step.ClaimDue? && step.run == run && run in w.runs
                && id in w.db.rows && Due(w.db.rows[id], w.runs[run].now)
                && Apply(cfg, lat, w, step).runs[run].now == w.runs[run].now)
  {
  }

  lemma OpeningStep(cfg: Config, lat: Latency, w: World, step: Step, id: RowId, event: Option<int>, o: Option<Override>,
          opens: Option<Time>)
    requires cfg.Positive() && Enabled(cfg, lat, w, step) && AllTimed(cfg, lat, w) && id < w.db.nextRow
    requires OpeningHeld(w, id, event, opens)
    requires id in w.db.rows && EventOf(w, step, id).Some? ==> L.SteadyEvent(EventOf(w, step, id).value, o, opens)
    ensures OpeningHeld(Apply(cfg, lat, w, step), id, event, opens)
  {
    var w' := Apply(cfg, lat, w, step);
    if opens.Some? {
      forall run | run in w'.runs && id in w'.runs[run].batch
        ensures w'.runs[run].now >= opens.value
      {
        BatchGrows(cfg, lat, w, step, run, id);
      }
    }
    if id in w.db.rows {
      RowFollows(cfg, lat, w, step, id);
      if EventOf(w, step, id).Some? { OpeningAfter(cfg, lat, w, step, id, event, o, opens); }
    } else {
      RowStaysGone(cfg, lat, w, step, id);
    }
  }

  lemma OpeningAfter(cfg: Config, lat: Latency, w: World, step: Step, id: RowId, event: Option<int>,
          o: Option<Override>, opens: Option<Time>)
    requires cfg.Positive() && Enabled(cfg, lat, w, step) && AllTimed(cfg, lat, w) && id in w.db.rows
    requires OpeningHeld(w, id, event, opens) && EventOf(w, step, id).Some?
    requires L.SteadyEvent(EventOf(w, step, id).value, o, opens)
    ensures var row' := L.After(cfg, w.db.rows[id], EventOf(w, step, id).value);
            row'.event == event && (opens.Some? ==> row'.dispatchAt >= opens.value)
  {
    var ev := EventOf(w, step, id).value;
    L.StayedOnEvent(cfg, w.db.rows[id], ev);
    if !ev.Requeue? { L.DispatchMoves(cfg, w.db.rows[id], ev); }
    if ev.Process? { WorkFollowsStart(cfg, lat, w, step.run, step.x); }
  }

  /** process_row reads its clocks after its run's start, on a row of the run's batch. */
  lemma WorkFollowsStart(cfg: Config, lat: Latency, w: World, run: RunId, x: Inputs)
    requires AllTimed(cfg, lat, w) && CanWork(lat, w, run, x)
    ensures w.runs[run].now <= x.checkedAt <= x.calledAt <= x.doneAt && x.calledAt <= x.checkedAt + lat.row
    ensures InFlight(w.runs[run]) in w.runs[run].batch
  {
  }

  /** The story of a row that keeps its event and override, with no requeue before the opening. */
  ghost predicate SteadyStory(s: Story, earliest: Option<Time>) { s.Story? && L.Steady(s.events, s.under, earliest) }

  function Opening(s: Story): Option<Time>
    requires s.Story?
  {
    L.OpensAt(s.under, s.born.event)
  }

  function Closing(s: Story): Option<Time>
    requires s.Story?
  {
    L.ClosesAt(s.under, s.born.event)
  }

  lemma {:induction false} OpeningKept(cfg: Config, lat: Latency, t0: Time, steps: seq<Step>, id: RowId)
    requires cfg.Positive() && Valid(cfg, lat, t0, steps)
    requires var s := StoryOf(cfg, lat, t0, steps, id); s.Story? && SteadyStory(s, Opening(s))
    ensures var s := StoryOf(cfg, lat, t0, steps, id);
            OpeningHeld(Exec(cfg, lat, t0, steps), id, s.born.event, Opening(s))
    decreases |steps|
  {
    var past := Past(steps);
    var w, step, before := Exec(cfg, lat, t0, past), Last(steps), StoryOf(cfg, lat, t0, past, id);
    var s := StoryOf(cfg, lat, t0, steps, id);
    EveryRowHasItsStory(cfg, lat, t0, past, id);
    EveryRowHasItsStory(cfg, lat, t0, steps, id);
    if before.Story? {
      assert forall ev | ev in before.events :: ev in s.events;
      OpeningKept(cfg, lat, t0, past, id);
      TimedAlways(cfg, lat, t0, past);
      if id in w.db.rows && EventOf(w, step, id).Some? { assert EventOf(w, step, id).value in s.events; }
      OpeningStep(cfg, lat, w, step, id, s.born.event, s.under, Opening(s));
    } else {
      BatchesAlwaysKnown(cfg, lat, t0, past);
      RowAppears(cfg, lat, w, step, id);
    }
  }

  // --------------------------------------------------------------------- main results

  /** The story of the row a step processes, up to that step. */
  ghost function StoryBefore(cfg: Config, lat: Latency, t0: Time, steps: seq<Step>, i: nat): Story
    requires Valid(cfg, lat, t0, steps) && i < |steps| && Works(steps[i])
  {
    PrefixValid(cfg, lat, t0, steps, i);
    StoryOf(cfg, lat, t0, steps[..i], WorkedRow(cfg, lat, t0, steps, i))
  }

  /** The i-th step calls SES for a row whose event and override are those it was queued under,
      and which was not requeued before `earliest`. */
  ghost predicate SteadyCall(cfg: Config, lat: Latency, t0: Time, steps: seq<Step>, i: nat, earliest: Option<Time>) {
    && Valid(cfg, lat, t0, steps) && i < |steps| && CallsAt(cfg, lat, t0, steps, i)
    && var s := StoryBefore(cfg, lat, t0, steps, i);
       SteadyStory(s, earliest) && steps[i].x.catalog.override == s.under
  }

  /** Every such call, committed or lost, follows the opening; its window test precedes the
      closing, and the call trails the closing by no more than one row can take. */
  lemma SendsInsideWindow(cfg: Config, lat: Latency, t0: Time, steps: seq<Step>, i: nat)
    requires cfg.Positive() && Valid(cfg, lat, t0, steps) && i < |steps| && Works(steps[i])
    requires var s := StoryBefore(cfg, lat, t0, steps, i);
             s.Story? && SteadyCall(cfg, lat, t0, steps, i, Opening(s))
    ensures var s, x := StoryBefore(cfg, lat, t0, steps, i), steps[i].x;
            && (Opening(s).Some? ==> Opening(s).value <= x.checkedAt <= x.calledAt)
            && (Closing(s).Some? ==> x.checkedAt <= Closing(s).value && x.calledAt <= Closing(s).value + lat.row)
  {
    PrefixValid(cfg, lat, t0, steps, i);
    StateAfter(cfg, lat, t0, steps, i);
    OpeningKept(cfg, lat, t0, steps[..i], WorkedRow(cfg, lat, t0, steps, i));
    TimedAlways(cfg, lat, t0, steps[..i]);
    WorkFollowsStart(cfg, lat, StateAt(cfg, lat, t0, steps, i), steps[i].run, steps[i].x);
  }

  function WindowOf(opens: Time, closes: Time): Override { Override(None, None, None, Some(opens), Some(closes), None) }

  ghost predicate CallUnder(cfg: Config, lat: Latency, t0: Time, steps: seq<Step>, i: nat, o: Override,
          earliest: Time) {
    && SteadyCall(cfg, lat, t0, steps, i, Some(earliest))
    && var s := StoryBefore(cfg, lat, t0, steps, i);
       s.under == Some(o) && s.born.event.Some?
  }

  ghost predicate NoCallAfter(cfg: Config, lat: Latency, opens: Time, closes: Time, latest: Time) {
    forall t0: Time, steps: seq<Step>, i: nat | CallUnder(cfg, lat, t0, steps, i, WindowOf(opens, closes), opens) ::
      steps[i].x.calledAt <= latest
  }

  /** The closing is looked at before rendering, so over all histories the last instant of an SES
      call is the closing plus the longest time one row can take. */
  lemma LatestCall(cfg: Config, lat: Latency, opens: Time, closes: Time, latest: Time)
    requires Roomy(cfg, lat) && opens <= closes
    ensures NoCallAfter(cfg, lat, opens, closes, latest) <==> latest >= closes + lat.row
  {
    if latest >= closes + lat.row {
      forall t0: Time, steps: seq<Step>, i: nat | CallUnder(cfg, lat, t0, steps, i, WindowOf(opens, closes), opens)
        ensures steps[i].x.calledAt <= latest
      {
        SendsInsideWindow(cfg, lat, t0, steps, i);
      }
    } else {
      var steps, i := LateCall(cfg, lat, opens, closes);
    }
  }

  ghost predicate NoCallBefore(cfg: Config, lat: Latency, opens: Time, closes: Time, earliest: Time) {
    forall t0: Time, steps: seq<Step>, i: nat | CallUnder(cfg, lat, t0, steps, i, WindowOf(opens, closes), earliest) ::
      steps[i].x.calledAt >= opens
  }

  /** An operator's requeue takes the present as dispatch time and sending looks only at the
      closing, so over all histories no email leaves before the opening exactly when no requeue
      comes before it. */
  lemma EarliestCall(cfg: Config, lat: Latency, opens: Time, closes: Time, earliest: Time)
    requires Roomy(cfg, lat) && opens <= closes
    ensures NoCallBefore(cfg, lat, opens, closes, earliest) <==> earliest >= opens
  {
    if earliest >= opens {
      forall t0: Time, steps: seq<Step>, i: nat | CallUnder(cfg, lat, t0, steps, i, WindowOf(opens, closes), earliest)
        ensures steps[i].x.calledAt >= opens
      {
        SteadyLonger(StoryBefore(cfg, lat, t0, steps, i), earliest, opens);
        SendsInsideWindow(cfg, lat, t0, steps, i);
      }
    } else {
      var steps, i := EarlyCall(cfg, lat, opens, closes, earliest);
    }
  }

  lemma SteadyLonger(s: Story, later: Time, earlier: Time)
    requires SteadyStory(s, Some(later)) && earlier <= later
    ensures SteadyStory(s, Some(earlier))
  {
    forall ev | ev in s.events
      ensures L.SteadyEvent(ev, s.under, Some(earlier))
    {
      assert L.SteadyEvent(ev, s.under, Some(later));
    }
  }

  // ------------------------------------------------------------------- the kill switch

  /** The base row of the template is missing or inactive. */
  predicate Retired(c: Catalog) { c.base.None? || !c.base.value.active }

  /** Retiring the base template stops every path to a recipient, whatever any override says: the
      enqueue is blocked, and a row already claimed ends without SES being called. */
  lemma RetiredIsSilent(cfg: Config, rows: map<RowId, Row>, q: Request, now: Time, row: Row, x: Inputs)
    requires Retired(x.catalog)
    ensures EnqueueVerdict(rows, q, x.catalog, now) == BlockedInactive
    ensures !CallsSes(row, x) && Process(cfg, row, x).row.status == Cancelled
  {
    if x.catalog.base.Some? && x.catalog.override.Some? {
      var b, o := x.catalog.base.value, x.catalog.override.value;
      MergeLaws(b, b, o, if row.event.Some? then row.event.value else 0);
    }
  }

  /** An override that switches its event off does the same for that event, though the base
      stays active: nothing is queued, and a row already claimed ends without SES being called. */
  lemma SwitchedOffIsSilent(cfg: Config, rows: map<RowId, Row>, q: Request, now: Time, row: Row, x: Inputs)
    requires x.catalog.base.Some? && x.catalog.override.Some? && x.catalog.override.value.active == Some(false)
    requires q.event.Some? && row.event.Some?
    ensures EnqueueVerdict(rows, q, x.catalog, now) == BlockedInactive
    ensures !CallsSes(row, x) && Process(cfg, row, x).row.status == Cancelled
  {
    var b, o := x.catalog.base.value, x.catalog.override.value;
    MergeLaws(b, b, o, q.event.value);
    MergeLaws(b, b, o, row.event.value);
  }

  // ------------------------------------------------------------- the edges are reached

  const WINDOWED: Request := REQUEST.(event := Some(1))

  function UnderWindow(opens: Time, closes: Time): Catalog { PLAIN.(override := Some(WindowOf(opens, closes))) }

  function SendUnder(c: Catalog, checkedAt: Time, calledAt: Time): Inputs {
    Inputs(true, true, true, c, checkedAt, RenderOk(Rendered("subject", "body")), false, true, calledAt, Accepted("id"),
           calledAt)
  }

  /** What a history's last step processed. */
  lemma LastCall(cfg: Config, lat: Latency, t0: Time, steps: seq<Step>, w: World, id: RowId, s: Story, run: RunId,
          x: Inputs)
    returns (steps': seq<Step>)
    requires Tells(cfg, lat, t0, steps, w, id, s) && CanWork(lat, w, run, x) && InFlight(w.runs[run]) == id
    requires CallsSes(w.db.rows[id], x)
    ensures steps' == steps + [CommitRow(run, x)] && Valid(cfg, lat, t0, steps')
    ensures CallsAt(cfg, lat, t0, steps', |steps|) && StoryBefore(cfg, lat, t0, steps', |steps|) == s
  {
    steps' := TakeStep(cfg, lat, t0, steps, w, CommitRow(run, x));
    assert steps'[..|steps|] == steps;
  }

  lemma LateCall(cfg: Config, lat: Latency, opens: Time, closes: Time) returns (steps: seq<Step>, i: nat)
    requires Roomy(cfg, lat) && opens <= closes
    ensures CallUnder(cfg, lat, opens, steps, i, WindowOf(opens, closes), opens)
    ensures steps[i].x.calledAt == closes + lat.row
  {
    var c := UnderWindow(opens, closes);
    var row := NewRow(WINDOWED, c, opens);
    var s := Story(row, c.override, []);
    steps := Queue(cfg, lat, opens, WINDOWED, c);
    steps := Wait(cfg, lat, opens, steps, Fresh(opens, WINDOWED, c), 0, s, closes);
    var w := Fresh(opens, WINDOWED, c).(clock := closes);
    steps, s := Work(cfg, lat, opens, steps, w, 0, s, 1);
    steps := Wait(cfg, lat, opens, steps, Working(w, 1, 0), 0, s, closes + lat.row);
    i := |steps|;
    steps := LastCall(cfg, lat, opens, steps, Working(w, 1, 0).(clock := closes + lat.row), 0, s, 1,
                      SendUnder(c, closes, closes + lat.row));
  }

  /** Queued before the opening, withdrawn, and requeued at once. */
  lemma Revived(cfg: Config, lat: Latency, opens: Time, closes: Time, at: Time)
    returns (steps: seq<Step>, w: World, s: Story)
    requires at < opens <= closes
    ensures Tells(cfg, lat, at, steps, w, 0, s) && w.clock == at && w.runs == map[]
    ensures s.Story? && s.under == Some(WindowOf(opens, closes)) && s.born.event.Some?
    ensures s.events == [L.Withdraw(at), L.Requeue(at)]
    ensures 0 in w.db.rows
    ensures var row := w.db.rows[0];
            && row.status == Status.Queued && row.dispatchAt == at && row.workItem == Some(1)
            && row.templateKey == "finalized" && row.event.Some?
  {
    var c := UnderWindow(opens, closes);
    var born := NewRow(WINDOWED, c, at);
    s := Story(born, c.override, []);
    w := Fresh(at, WINDOWED, c);
    steps := Queue(cfg, lat, at, WINDOWED, c);
    steps := Tell(cfg, lat, at, steps, w, 0, s, WithdrawRow(0));
    w := Apply(cfg, lat, w, WithdrawRow(0));
    s := Story(born, c.override, [L.Withdraw(at)]);
    steps := Tell(cfg, lat, at, steps, w, 0, s, RequeueRow(0));
    w := Apply(cfg, lat, w, RequeueRow(0));
    s := Story(born, c.override, [L.Withdraw(at), L.Requeue(at)]);
  }

  lemma EarlyCall(cfg: Config, lat: Latency, opens: Time, closes: Time, at: Time) returns (steps: seq<Step>, i: nat)
    requires Roomy(cfg, lat) && at < opens <= closes
    ensures CallUnder(cfg, lat, at, steps, i, WindowOf(opens, closes), at)
    ensures steps[i].x.calledAt == at
  {
    var w, s;
    steps, w, s := Revived(cfg, lat, opens, closes, at);
    steps, s := Work(cfg, lat, at, steps, w, 0, s, 1);
    i := |steps|;
    steps := LastCall(cfg, lat, at, steps, Working(w, 1, 0), 0, s, 1, SendUnder(UnderWindow(opens, closes), at, at));
  }
}
