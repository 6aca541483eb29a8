/** Whole histories: every row of every interleaving lives a life of module RowLife, and what
    follows for the tables, the audit trail, the dedup keys and the send windows. */
module Histories {
  import opened Basics
  import opened Templates
  import opened Outbox
  import opened World
  import opened Lease
  import L = RowLife

  // ------------------------------------------------------- from steps to row events

  /** What one step does to one row. */
  ghost function EventOf(w: World, step: Step, id: RowId): Option<L.Event>
    requires id in w.db.rows
  {
    match step
    case WithdrawRow(i) => if i == id then Some(L.Withdraw(w.clock)) else None
    case RequeueRow(i) => if i == id then Some(L.Requeue(w.clock)) else None
    case DetachRow(i, wi, e, d) => if i == id then Some(L.Detach(wi, e, d)) else None
    case ReapStale(run) =>
      if run in w.runs && Stale(w.db.rows[id], w.runs[run].now) then Some(L.Reap) else None
    case ClaimDue(run, batch) => if run in w.runs && id in batch then Some(L.Claim(run, w.runs[run].now)) else None
    case CommitRow(run, x) =>
      if run in w.runs && w.runs[run].next < |w.runs[run].batch| && InFlight(w.runs[run]) == id then Some(L.Process(x))
      else None
    case ReleaseRun(run) => if HeldBy(w.db.rows[id], run) then Some(L.Release) else None
    case _ => None
  }

  /** A step changes a row by its event, or deletes it when pruning allows. */
  lemma RowFollows(cfg: Config, lat: Latency, w: World, step: Step, id: RowId)
    requires Enabled(cfg, lat, w, step) && id in w.db.rows && id < w.db.nextRow
    ensures var rows' := Apply(cfg, lat, w, step).db.rows;
            var ev := EventOf(w, step, id);
            if id in rows' then
              rows'[id] == if ev.Some? then L.After(cfg, w.db.rows[id], ev.value) else w.db.rows[id]
            else
              step.PruneRows? && step.run in w.runs && Prunable(cfg, w.db.rows[id], w.runs[step.run].now) && ev.None?
  {
  }

  /** A row appears only by an enqueue that is neither blocked nor a duplicate. */
  lemma RowAppears(cfg: Config, lat: Latency, w: World, step: Step, id: RowId)
    requires Enabled(cfg, lat, w, step) && id !in w.db.rows && id in Apply(cfg, lat, w, step).db.rows
    ensures step.Insert? && id == w.db.nextRow
    ensures EnqueueVerdict(w.db.rows, step.q, step.catalog, w.clock).Queues()
    ensures Apply(cfg, lat, w, step).db.rows[id] == NewRow(step.q, step.catalog, w.clock)
  {
  }

  /** Claims take due rows, and every step but processing tests the status of the row it changes. */
  lemma EventLawful(cfg: Config, lat: Latency, w: World, step: Step, id: RowId)
    requires Enabled(cfg, lat, w, step) && id in w.db.rows && EventOf(w, step, id).Some?
    ensures L.Lawful(w.db.rows[id], EventOf(w, step, id).value)
  {
  }

  /** With the lease covering every commit, the events are legal as well. */
  lemma EventLegal(cfg: Config, lat: Latency, w: World, step: Step, id: RowId)
    requires LeaseFits(cfg, lat) && LeaseHeld(cfg, lat, w) && Enabled(cfg, lat, w, step) && id in w.db.rows
    requires EventOf(w, step, id).Some?
    ensures L.Legal(w.db.rows[id], EventOf(w, step, id).value)
  {
    if step.CommitRow? { WorkHolds(cfg, lat, w, step.run, step.x); }
  }

  /** `under` is the override in force when the row was inserted. */
  datatype Story = Unborn | Story(born: Row, under: Option<Override>, events: seq<L.Event>)

  /** A row's story after one more step. */
  ghost function NextStory(cfg: Config, lat: Latency, w: World, s: Story, step: Step, id: RowId): Story
    requires Enabled(cfg, lat, w, step)
  {
    match s
    case Unborn =>
      if id !in w.db.rows && id in Apply(cfg, lat, w, step).db.rows && step.Insert?
      then Story(Apply(cfg, lat, w, step).db.rows[id], step.catalog.override, [])
      else Unborn
    case Story(born, under, events) =>
      if id in w.db.rows && EventOf(w, step, id).Some?
      then Story(born, under, events + [EventOf(w, step, id).value])
      else s
  }

  /** The life of one row in one history. */
  ghost function StoryOf(cfg: Config, lat: Latency, t0: Time, steps: seq<Step>, id: RowId): Story
    requires Valid(cfg, lat, t0, steps)
    decreases |steps|
  {
    if steps == [] then Unborn
    else
      NextStory(cfg, lat, Exec(cfg, lat, t0, Past(steps)), StoryOf(cfg, lat, t0, Past(steps), id), Last(steps), id)
  }

  /** The row as its story leaves it. */
  ghost function Ending(cfg: Config, s: Story): Row
    requires s.Story?
  {
    L.RowAt(cfg, s.born, s.events)
  }

  ghost predicate StoryTold(cfg: Config, db: Db, id: RowId, s: Story) {
    && (s.Story? <==> id < db.nextRow)
    && (id in db.rows ==> s.Story? && db.rows[id] == Ending(cfg, s))
    && (s.Story? ==> L.Newborn(s.born) && L.LawfulLife(cfg, s.born, s.events))
    && (s.Story? && id !in db.rows ==> Ending(cfg, s).status.Terminal())
    && (s.Story? && L.OpensAt(s.under, s.born.event).Some? ==>
          s.born.dispatchAt >= L.OpensAt(s.under, s.born.event).value)
  }

  /** In every history, timely or not, each row ever inserted has a story, which ends in its
      present state or, once it is pruned, in a terminal one. */
  lemma {:induction false} EveryRowHasItsStory(cfg: Config, lat: Latency, t0: Time, steps: seq<Step>, id: RowId)
    requires Valid(cfg, lat, t0, steps)
    ensures StoryTold(cfg, Exec(cfg, lat, t0, steps).db, id, StoryOf(cfg, lat, t0, steps, id))
    decreases |steps|
  {
    if steps != [] {
      EveryRowHasItsStory(cfg, lat, t0, Past(steps), id);
      StoryStep(cfg, lat, Exec(cfg, lat, t0, Past(steps)), StoryOf(cfg, lat, t0, Past(steps), id), Last(steps), id);
    }
  }

  lemma StoryStep(cfg: Config, lat: Latency, w: World, s: Story, step: Step, id: RowId)
    requires Enabled(cfg, lat, w, step) && StoryTold(cfg, w.db, id, s)
    ensures StoryTold(cfg, Apply(cfg, lat, w, step).db, id, NextStory(cfg, lat, w, s, step, id))
  {
    if id in w.db.rows {
      RowFollows(cfg, lat, w, step, id);
      IdsGrow(cfg, lat, w, step);
      if EventOf(w, step, id).Some? {
        EventLawful(cfg, lat, w, step, id);
        var ev := EventOf(w, step, id).value;
        assert (s.events + [ev])[..|s.events|] == s.events;
      }
    } else {
      RowStaysGone(cfg, lat, w, step, id);
      if id in Apply(cfg, lat, w, step).db.rows { RowAppears(cfg, lat, w, step, id); }
    }
  }

  /** Within the lease every story is a legal life: its row is processed only under a claim. */
  lemma {:induction false} EveryLifeIsLegal(cfg: Config, lat: Latency, t0: Time, steps: seq<Step>, id: RowId)
    requires LeaseFits(cfg, lat) && Valid(cfg, lat, t0, steps)
    ensures var s := StoryOf(cfg, lat, t0, steps, id); s.Story? ==> L.LegalLife(cfg, s.born, s.events)
    decreases |steps|
  {
    if steps != [] {
      EveryLifeIsLegal(cfg, lat, t0, Past(steps), id);
      EveryRowHasItsStory(cfg, lat, t0, Past(steps), id);
      LeaseAlways(cfg, lat, t0, Past(steps));
      LegalStep(cfg, lat, Exec(cfg, lat, t0, Past(steps)), StoryOf(cfg, lat, t0, Past(steps), id), Last(steps), id);
    }
  }

  lemma LegalStep(cfg: Config, lat: Latency, w: World, s: Story, step: Step, id: RowId)
    requires LeaseFits(cfg, lat) && LeaseHeld(cfg, lat, w) && Enabled(cfg, lat, w, step)
    requires StoryTold(cfg, w.db, id, s) && (s.Story? ==> L.LegalLife(cfg, s.born, s.events))
    ensures var s' := NextStory(cfg, lat, w, s, step, id); s'.Story? ==> L.LegalLife(cfg, s'.born, s'.events)
  {
    if s.Story? && id in w.db.rows && EventOf(w, step, id).Some? {
      EventLegal(cfg, lat, w, step, id);
      var ev := EventOf(w, step, id).value;
      assert (s.events + [ev])[..|s.events|] == s.events;
    }
  }

  lemma IdsGrow(cfg: Config, lat: Latency, w: World, step: Step)
    requires Enabled(cfg, lat, w, step)
    ensures w.db.nextRow <= Apply(cfg, lat, w, step).db.nextRow
  {
  }

  lemma RowStaysGone(cfg: Config, lat: Latency, w: World, step: Step, id: RowId)
    requires Enabled(cfg, lat, w, step) && id !in w.db.rows
    ensures var db' := Apply(cfg, lat, w, step).db;
            if id in db'.rows then id == w.db.nextRow && db'.nextRow == id + 1 && L.Newborn(db'.rows[id])
            else (id < db'.nextRow <==> id < w.db.nextRow)
  {
  }
}
