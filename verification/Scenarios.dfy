/** Histories of one row, built step by step together with the row's story. */
module Scenarios {
  import opened Basics
  import opened Templates
  import opened Outbox
  import opened World
  import opened Histories
  import L = RowLife

  predicate Requeueless(steps: seq<Step>) { forall step | step in steps :: !step.RequeueRow? }

  ghost predicate Tells(cfg: Config, lat: Latency, t0: Time, steps: seq<Step>, w: World, id: RowId, s: Story) {
    Leads(cfg, lat, t0, steps, w) && StoryOf(cfg, lat, t0, steps, id) == s
  }

  lemma Tell(cfg: Config, lat: Latency, t0: Time, steps: seq<Step>, w: World, id: RowId, s: Story, step: Step)
    returns (steps': seq<Step>)
    requires Tells(cfg, lat, t0, steps, w, id, s) && Enabled(cfg, lat, w, step)
    ensures steps' == steps + [step]
    ensures Tells(cfg, lat, t0, steps', Apply(cfg, lat, w, step), id, NextStory(cfg, lat, w, s, step, id))
  {
    steps' := TakeStep(cfg, lat, t0, steps, w, step);
    assert Past(steps') == steps && Last(steps') == step;
  }

  /** A run that has just swept, claimed this one row and begun it, all at the present instant. */
  function Working(w: World, run: RunId, id: RowId): World {
    World(w.clock, Claim(Reap(w.db, w.clock), run, w.clock, [id]),
          w.runs[run := Run(w.clock, Looping, w.clock, [id], 0, Some(w.clock))])
  }

  predicate Roomy(cfg: Config, lat: Latency) { cfg.Positive() && lat.claim >= 0 && lat.row >= 0 }

  /** Any due row can be claimed and begun at once. */
  lemma Work(cfg: Config, lat: Latency, t0: Time, steps: seq<Step>, w: World, id: RowId, s: Story, run: RunId)
    returns (steps': seq<Step>, s': Story)
    requires Roomy(cfg, lat) && Tells(cfg, lat, t0, steps, w, id, s) && s.Story?
    requires run !in w.runs && id in w.db.rows && Due(Reap(w.db, w.clock).rows[id], w.clock)
    ensures steps <= steps'
    ensures Requeueless(steps'[|steps|..])
    ensures Tells(cfg, lat, t0, steps', Working(w, run, id), id, s')
    ensures s'.Story? && s'.born == s.born && s'.under == s.under
    ensures !Stale(w.db.rows[id], w.clock) ==> s'.events == s.events + [L.Claim(run, w.clock)]
  {
    steps', s' := Sweep(cfg, lat, t0, steps, w, id, s, run);
    var claim := L.Claim(run, w.clock);
    steps' := Take(cfg, lat, t0, steps', Swept(w, run), id, s', run);
    s' := s'.(events := s'.events + [claim]);
  }

  lemma Take(cfg: Config, lat: Latency, t0: Time, steps: seq<Step>, w: World, id: RowId, s: Story, run: RunId)
    returns (steps': seq<Step>)
    requires Roomy(cfg, lat) && Tells(cfg, lat, t0, steps, w, id, s) && s.Story?
    requires run in w.runs && w.runs[run] == Run(w.clock, HasReaped, w.clock, [], 0, None)
    requires id in w.db.rows && Due(w.db.rows[id], w.clock)
    ensures steps <= steps' && Requeueless(steps'[|steps|..])
    ensures Tells(cfg, lat, t0, steps',
                  World(w.clock, Claim(w.db, run, w.clock, [id]),
                        w.runs[run := Run(w.clock, Looping, w.clock, [id], 0, Some(w.clock))]),
                  id, s.(events := s.events + [L.Claim(run, w.clock)]))
  {
    assert IsClaimBatch(w.db.rows, w.clock, cfg.batchSize, [id]);
    var w1 := Apply(cfg, lat, w, ClaimDue(run, [id]));
    var s1 := s.(events := s.events + [L.Claim(run, w.clock)]);
    steps' := Tell(cfg, lat, t0, steps, w, id, s, ClaimDue(run, [id]));
    steps' := Tell(cfg, lat, t0, steps', w1, id, s1, BeginRow(run));
  }

  function Swept(w: World, run: RunId): World {
    World(w.clock, Reap(w.db, w.clock), w.runs[run := Run(w.clock, HasReaped, w.clock, [], 0, None)])
  }

  lemma Sweep(cfg: Config, lat: Latency, t0: Time, steps: seq<Step>, w: World, id: RowId, s: Story, run: RunId)
    returns (steps': seq<Step>, s': Story)
    requires Tells(cfg, lat, t0, steps, w, id, s) && s.Story? && run !in w.runs && id in w.db.rows
    ensures steps <= steps'
    ensures Requeueless(steps'[|steps|..])
    ensures Tells(cfg, lat, t0, steps', Swept(w, run), id, s')
    ensures s'.Story? && s'.born == s.born && s'.under == s.under
    ensures !Stale(w.db.rows[id], w.clock) ==> s' == s
  {
    var w1 := Apply(cfg, lat, w, StartRun(run));
    steps' := Tell(cfg, lat, t0, steps, w, id, s, StartRun(run));
    steps' := Tell(cfg, lat, t0, steps', w1, id, s, ReapStale(run));
    s' := NextStory(cfg, lat, w1, s, ReapStale(run), id);
    assert Apply(cfg, lat, w1, ReapStale(run)) == Swept(w, run);
  }

  lemma Wait(cfg: Config, lat: Latency, t0: Time, steps: seq<Step>, w: World, id: RowId, s: Story, until: Time)
    returns (steps': seq<Step>)
    requires Tells(cfg, lat, t0, steps, w, id, s) && until >= w.clock
    ensures steps <= steps'
    ensures Requeueless(steps'[|steps|..])
    ensures Tells(cfg, lat, t0, steps', w.(clock := until), id, s)
  {
    steps' := Tell(cfg, lat, t0, steps, w, id, s, Tick(until - w.clock));
  }

  /** The first row of a history: queued at its start. */
  function Fresh(t0: Time, q: Request, c: Catalog): World {
    World(t0, Db(map[0 := NewRow(q, c, t0)], 1, [], 0, []), map[])
  }

  lemma Queue(cfg: Config, lat: Latency, t0: Time, q: Request, c: Catalog) returns (steps: seq<Step>)
    requires BlockedBy(q, c, t0).None?
    ensures Requeueless(steps)
    ensures Tells(cfg, lat, t0, steps, Fresh(t0, q, c), 0, Story(NewRow(q, c, t0), c.override, []))
  {
    assert Tells(cfg, lat, t0, [], Genesis(t0), 0, Unborn);
    assert !EnqueueVerdict(map[], q, c, t0).Duplicate?;
    steps := Tell(cfg, lat, t0, [], Genesis(t0), 0, Unborn, Insert(q, c));
    assert Apply(cfg, lat, Genesis(t0), Insert(q, c)).db.rows == map[0 := NewRow(q, c, t0)];
  }
}
