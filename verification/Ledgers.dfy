/** The ledgers of every row in every history: work done on it, attempts charged to it, and what
    the audit trail says about it. */
module Ledgers {
  import opened Basics
  import opened Outbox
  import opened World
  import opened Lease
  import opened Histories
  import opened Audit
  import L = RowLife

  ghost function LedgerOf(cfg: Config, lat: Latency, t0: Time, steps: seq<Step>, id: RowId): L.Ledger
    requires Valid(cfg, lat, t0, steps)
  {
    var s := StoryOf(cfg, lat, t0, steps, id);
    if s.Story? then L.LedgerAt(cfg, s.born, s.events) else L.BLANK
  }

  /** A step books what its event says. */
  lemma LedgerFollows(cfg: Config, lat: Latency, t0: Time, steps: seq<Step>, id: RowId)
    requires Valid(cfg, lat, t0, steps) && steps != []
    ensures var w, step := Exec(cfg, lat, t0, Past(steps)), Last(steps);
            var led, led' := LedgerOf(cfg, lat, t0, Past(steps), id), LedgerOf(cfg, lat, t0, steps, id);
            led' == if id in w.db.rows && EventOf(w, step, id).Some?
                    then L.Post(cfg, w.db.rows[id], led, EventOf(w, step, id).value) else led
  {
    EveryRowHasItsStory(cfg, lat, t0, Past(steps), id);
    var w, step := Exec(cfg, lat, t0, Past(steps)), Last(steps);
    var s := StoryOf(cfg, lat, t0, Past(steps), id);
    if s.Story? && id in w.db.rows && EventOf(w, step, id).Some? {
      var ev := EventOf(w, step, id).value;
      assert (s.events + [ev])[..|s.events|] == s.events;
    }
  }

  // ------------------------------------------------------------------ bounded work

  ghost predicate CommitsOn(w: World, step: Step, id: RowId) {
    step.CommitRow? && id in w.db.rows && EventOf(w, step, id).Some?
  }

  /** Committed process_row calls on a row since it was inserted or last requeued. */
  ghost function CommitCount(cfg: Config, lat: Latency, t0: Time, steps: seq<Step>, id: RowId): nat
    requires Valid(cfg, lat, t0, steps)
    decreases |steps|
  {
    if steps == [] || Last(steps) == RequeueRow(id) then 0
    else
      CommitCount(cfg, lat, t0, Past(steps), id) +
      if CommitsOn(Exec(cfg, lat, t0, Past(steps)), Last(steps), id) then 1 else 0
  }

  /** Those of them in which SES reported an account-wide halt. */
  ghost function HaltCount(cfg: Config, lat: Latency, t0: Time, steps: seq<Step>, id: RowId): nat
    requires Valid(cfg, lat, t0, steps)
    decreases |steps|
  {
    if steps == [] || Last(steps) == RequeueRow(id) then 0
    else
      var w := Exec(cfg, lat, t0, Past(steps));
      HaltCount(cfg, lat, t0, Past(steps), id) +
      if CommitsOn(w, Last(steps), id) && Halts(w.db.rows[id], Last(steps).x) then 1 else 0
  }

  lemma {:induction false} CountsBooked(cfg: Config, lat: Latency, t0: Time, steps: seq<Step>, id: RowId)
    requires Valid(cfg, lat, t0, steps)
    ensures var led := LedgerOf(cfg, lat, t0, steps, id);
            led.processed == CommitCount(cfg, lat, t0, steps, id) && led.halts == HaltCount(cfg, lat, t0, steps, id)
    decreases |steps|
  {
    if steps != [] {
      CountsBooked(cfg, lat, t0, Past(steps), id);
      LedgerFollows(cfg, lat, t0, steps, id);
    }
  }

  /** No row is processed more than (attempts + halts) times (blocked retries + 1), however
      claims, releases and reaps are interleaved, and a row processed that often has ended. */
  lemma BoundedWork(cfg: Config, lat: Latency, t0: Time, steps: seq<Step>, id: RowId)
    requires cfg.Positive() && LeaseFits(cfg, lat) && Valid(cfg, lat, t0, steps)
    ensures var n, bound := CommitCount(cfg, lat, t0, steps, id), L.WorkBound(cfg, HaltCount(cfg, lat, t0, steps, id));
            var rows := Exec(cfg, lat, t0, steps).db.rows;
            n <= bound && (id in rows && n == bound ==> rows[id].status.Terminal())
  {
    CountsBooked(cfg, lat, t0, steps, id);
    WorkOfStory(cfg, lat, t0, steps, id);
  }

  lemma WorkOfStory(cfg: Config, lat: Latency, t0: Time, steps: seq<Step>, id: RowId)
    requires cfg.Positive() && LeaseFits(cfg, lat) && Valid(cfg, lat, t0, steps)
    ensures var led, rows := LedgerOf(cfg, lat, t0, steps, id), Exec(cfg, lat, t0, steps).db.rows;
            && led.processed <= L.WorkBound(cfg, led.halts)
            && (id in rows && led.processed == L.WorkBound(cfg, led.halts) ==> rows[id].status.Terminal())
  {
    EveryRowHasItsStory(cfg, lat, t0, steps, id);
    EveryLifeIsLegal(cfg, lat, t0, steps, id);
    var s := StoryOf(cfg, lat, t0, steps, id);
    if s.Story? {
      L.LifeIsBounded(cfg, s.born, s.events);
    } else {
      L.WorkBoundPositive(cfg, 0);
    }
  }

  // ----------------------------------------------------------------- attempt ledger

  /** In every history, timely or not, attempt_count is the row's retryable transport failures
      plus its reaps while unblocked. */
  lemma AttemptLedger(cfg: Config, lat: Latency, t0: Time, steps: seq<Step>, id: RowId)
    requires Valid(cfg, lat, t0, steps) && id in Exec(cfg, lat, t0, steps).db.rows
    ensures L.AttemptsCounted(Exec(cfg, lat, t0, steps).db.rows[id], LedgerOf(cfg, lat, t0, steps, id))
  {
    EveryRowHasItsStory(cfg, lat, t0, steps, id);
    var s := StoryOf(cfg, lat, t0, steps, id);
    L.LifeCounts(cfg, s.born, s.events);
  }

  /** Within the lease, a row without reaps has attempts left while it lives, and waits out the
      whole backoff ladder. */
  lemma RetriesWait(cfg: Config, lat: Latency, t0: Time, steps: seq<Step>, id: RowId)
    requires cfg.Positive() && LeaseFits(cfg, lat) && Valid(cfg, lat, t0, steps)
    requires id in Exec(cfg, lat, t0, steps).db.rows
    ensures L.RetryWaits(cfg, Exec(cfg, lat, t0, steps).db.rows[id], LedgerOf(cfg, lat, t0, steps, id))
  {
    EveryRowHasItsStory(cfg, lat, t0, steps, id);
    EveryLifeIsLegal(cfg, lat, t0, steps, id);
    var s := StoryOf(cfg, lat, t0, steps, id);
    L.LifeWaits(cfg, s.born, s.events);
  }

  // ------------------------------------------------------------------- audit ledger

  /** What one step writes to the tables, seen from one row. */
  lemma TrailFollows(cfg: Config, lat: Latency, w: World, step: Step, id: RowId)
    requires Enabled(cfg, lat, w, step) && Sound(w.db)
    ensures var db' := Apply(cfg, lat, w, step).db;
            && Sound(db')
            && Trail(db', id) == Trail(w.db, id) +
               if id in w.db.rows && EventOf(w, step, id).Some? then
                 match EventOf(w, step, id).value
                 case Process(x) => L.NotesOf(Process(cfg, w.db.rows[id], x).entry)
                 case Withdraw(_) => L.NotesOf(Withdrawn(w.db.rows[id]).entry)
                 case _ => []
               else []
  {
    match step {
      case WithdrawRow(i) =>
        RecordedTrail(w.db, i, Withdrawn(w.db.rows[i]), w.clock, id);
      case CommitRow(run, x) =>
        var i := InFlight(w.runs[run]);
        RecordedTrail(w.db, i, Process(cfg, w.db.rows[i], x), x.doneAt, id);
      case OtherLog(log) =>
        OtherLogKeeps(w.db, log, id);
      case _ =>
        assert Apply(cfg, lat, w, step).db.logs == w.db.logs;
    }
  }

  lemma RecordedTrail(db: Db, i: RowId, e: Effect, at: Time, id: RowId)
    requires Sound(db)
    ensures Sound(RecordEffect(db, i, e, at))
    ensures Trail(RecordEffect(db, i, e, at), id) == Trail(db, id) + if id == i then L.NotesOf(e.entry) else []
  {
    if e.entry.Some? {
      var db' := db.(rows := db.rows[i := e.row]);
      AppendKeepsSound(db', e.row, i, e.entry.value, at);
      AppendExtendsTrail(db', e.row, i, e.entry.value, at, id);
    }
  }

  /** In every history the log tables hold about a row exactly what its events wrote, in order. */
  lemma {:induction false} TrailBooked(cfg: Config, lat: Latency, t0: Time, steps: seq<Step>, id: RowId)
    requires Valid(cfg, lat, t0, steps)
    ensures Sound(Exec(cfg, lat, t0, steps).db)
    ensures Trail(Exec(cfg, lat, t0, steps).db, id) == LedgerOf(cfg, lat, t0, steps, id).notes
    decreases |steps|
  {
    if steps != [] {
      TrailBooked(cfg, lat, t0, Past(steps), id);
      LedgerFollows(cfg, lat, t0, steps, id);
      TrailFollows(cfg, lat, Exec(cfg, lat, t0, Past(steps)), Last(steps), id);
    }
  }

  /** In every history, timely or not, the trail of a row holds one RENDER_BLOCKED entry per block
      episode, and the last entry of a row that has ended is its ending, with a stored body exactly
      when the template rendered in the step that ended the row. */
  lemma AuditLedger(cfg: Config, lat: Latency, t0: Time, steps: seq<Step>, id: RowId)
    requires Valid(cfg, lat, t0, steps) && id in Exec(cfg, lat, t0, steps).db.rows
    ensures var db, led := Exec(cfg, lat, t0, steps).db, LedgerOf(cfg, lat, t0, steps, id);
            var row, trail := db.rows[id], Trail(db, id);
            && L.Tally(trail, LogRenderBlocked) == led.episodes
            && (row.status.Terminal() ==>
                  trail != [] && trail[|trail| - 1] == L.Note(LogStatusOf(row.status), led.rendered))
  {
    EveryRowHasItsStory(cfg, lat, t0, steps, id);
    var s := StoryOf(cfg, lat, t0, steps, id);
    L.LifeCounts(cfg, s.born, s.events);
    TrailBooked(cfg, lat, t0, steps, id);
  }

  /** Within the lease, the trail also holds exactly one ending per time the row ended. */
  lemma EndingsCounted(cfg: Config, lat: Latency, t0: Time, steps: seq<Step>, id: RowId)
    requires cfg.Positive() && LeaseFits(cfg, lat) && Valid(cfg, lat, t0, steps)
    requires id in Exec(cfg, lat, t0, steps).db.rows
    ensures var db := Exec(cfg, lat, t0, steps).db;
            L.Endings(Trail(db, id)) ==
            LedgerOf(cfg, lat, t0, steps, id).requeues + (if db.rows[id].status.Terminal() then 1 else 0)
  {
    EveryRowHasItsStory(cfg, lat, t0, steps, id);
    EveryLifeIsLegal(cfg, lat, t0, steps, id);
    var s := StoryOf(cfg, lat, t0, steps, id);
    L.LifeKeeps(cfg, s.born, s.events);
    TrailBooked(cfg, lat, t0, steps, id);
  }
}
