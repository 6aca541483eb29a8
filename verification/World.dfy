/** The outbox under any interleaving of overlapping drain runs, crashes, enqueues and operator
    actions: one shared clock, one set of tables, and one step per commit. */
module World {
  import opened Basics
  import opened Templates
  import opened Outbox

  /** A dying run has lost the row in flight and can only release its claims. */
  datatype Phase = Started | HasReaped | Looping | Dying | Closed | Gone

  /** One drain run. `now` is captured when it starts; `loopFrom` is when its loop begins;
      `begun` is when it last passed the wall-clock test with a row still in flight. */
  datatype Run = Run(now: Time, phase: Phase, loopFrom: Time, batch: seq<RowId>, next: nat, begun: Option<Time>)

  datatype World = World(clock: Time, db: Db, runs: map<RunId, Run>)

  /** How late a claim can follow the start of its run, and how long one row can take. */
  datatype Latency = Latency(claim: Time, row: Time)

  datatype Step =
    | Tick(d: nat)
    | Insert(q: Request, catalog: Catalog)
    | WithdrawRow(id: RowId)
    | RequeueRow(id: RowId)
    | DetachRow(id: RowId, workItem: bool, event: bool, department: bool)
    | OtherLog(log: Log)                       // a Slack alert or a test send: no outbox row
    | StartRun(run: RunId)
    | ReapStale(run: RunId)
    | ClaimDue(run: RunId, batch: seq<RowId>)
    | SkipClaim(run: RunId)                    // the daily limit was already reached
    | BeginRow(run: RunId)
    | CommitRow(run: RunId, x: Inputs)
    | LoseRow(run: RunId, x: Inputs)           // a crash or failed commit after all process_row did
    | ReleaseRun(run: RunId)
    | PruneRows(run: RunId)
    | CrashRun(run: RunId)

  predicate InPhase(w: World, run: RunId, phase: Phase) { run in w.runs && w.runs[run].phase == phase }

  function InFlight(r: Run): RowId
    requires r.next < |r.batch|
  {
    r.batch[r.next]
  }

  /** The row in flight is present, and x is what process_row met since the run began it. */
  predicate CanWork(lat: Latency, w: World, run: RunId, x: Inputs) {
    && InPhase(w, run, Looping)
    && var r := w.runs[run];
       && r.next < |r.batch| && r.begun.Some? && InFlight(r) in w.db.rows
       && r.begun.value <= x.checkedAt <= x.calledAt <= x.doneAt <= w.clock <= r.begun.value + lat.row
  }

  ghost predicate Enabled(cfg: Config, lat: Latency, w: World, step: Step) {
    match step
    case Tick(_) => true
    case Insert(_, _) => true
    case WithdrawRow(id) => id in w.db.rows && w.db.rows[id].status.Claimable()
    case RequeueRow(id) => id in w.db.rows && w.db.rows[id].status.FreesKey()
    case DetachRow(id, _, _, _) => id in w.db.rows
    case OtherLog(log) => log.id == w.db.nextLog && log.source.None?
    case StartRun(run) => run !in w.runs
    case ReapStale(run) => InPhase(w, run, Started)
    case ClaimDue(run, batch) =>
      && InPhase(w, run, HasReaped)
      && w.clock <= w.runs[run].now + lat.claim
      && IsClaimBatch(w.db.rows, w.runs[run].now, cfg.batchSize, batch)
    case SkipClaim(run) => InPhase(w, run, HasReaped)
    case BeginRow(run) =>
      && InPhase(w, run, Looping)
      && var r := w.runs[run];
         r.next < |r.batch| && r.begun.None? && w.clock - r.loopFrom <= cfg.maxSeconds
    case CommitRow(run, x) => CanWork(lat, w, run, x)
    case LoseRow(run, x) => CanWork(lat, w, run, x)
    case ReleaseRun(run) => InPhase(w, run, Looping) || InPhase(w, run, Dying)
    case PruneRows(run) => InPhase(w, run, Closed)
    case CrashRun(run) => run in w.runs
  }

  function SetRow(w: World, id: RowId, row: Row): World { w.(db := w.db.(rows := w.db.rows[id := row])) }

  function SetRun(w: World, run: RunId, r: Run): World { w.(runs := w.runs[run := r]) }

  ghost function Apply(cfg: Config, lat: Latency, w: World, step: Step): World
    requires Enabled(cfg, lat, w, step)
  {
    match step
    case Tick(d) => w.(clock := w.clock + d)
    case Insert(q, catalog) => w.(db := Enqueue(w.db, q, catalog, w.clock))
    case WithdrawRow(id) => w.(db := RecordEffect(w.db, id, Withdrawn(w.db.rows[id]), w.clock))
    case RequeueRow(id) => SetRow(w, id, Requeued(w.db.rows[id], w.clock))
    case DetachRow(id, i, e, d) => SetRow(w, id, Detached(w.db.rows[id], i, e, d))
    case OtherLog(log) => w.(db := w.db.(logs := w.db.logs + [log], nextLog := w.db.nextLog + 1))
    case StartRun(run) => SetRun(w, run, Run(w.clock, Started, w.clock, [], 0, None))
    case ReapStale(run) =>
      SetRun(w.(db := Reap(w.db, w.runs[run].now)), run, w.runs[run].(phase := HasReaped))
    case ClaimDue(run, batch) =>
      SetRun(w.(db := Claim(w.db, run, w.runs[run].now, batch)), run,
             w.runs[run].(phase := Looping, loopFrom := w.clock, batch := batch))
    case SkipClaim(run) => SetRun(w, run, w.runs[run].(phase := Looping, loopFrom := w.clock))
    case BeginRow(run) => SetRun(w, run, w.runs[run].(begun := Some(w.clock)))
    case CommitRow(run, x) =>
      var r := w.runs[run];
      SetRun(w.(db := ProcessRow(cfg, w.db, InFlight(r), x)), run, r.(next := r.next + 1, begun := None))
    case LoseRow(run, _) => SetRun(w, run, w.runs[run].(phase := Dying, begun := None))
    case ReleaseRun(run) =>
      SetRun(w.(db := Release(w.db, run)), run, w.runs[run].(phase := if InPhase(w, run, Dying) then Gone else Closed))
    case PruneRows(run) => SetRun(w.(db := Prune(cfg, w.db, w.runs[run].now)), run, w.runs[run].(phase := Gone))
    case CrashRun(run) => SetRun(w, run, w.runs[run].(phase := Gone))
  }

  function Genesis(t0: Time): World { World(t0, EMPTY, map[]) }

  /** A history: a start time and the steps taken since, each enabled when it is taken. */
  ghost predicate Valid(cfg: Config, lat: Latency, t0: Time, steps: seq<Step>)
    decreases |steps|, 0
  {
    steps != [] ==>
      && Valid(cfg, lat, t0, Past(steps))
      && Enabled(cfg, lat, Exec(cfg, lat, t0, Past(steps)), Last(steps))
  }

  ghost function Exec(cfg: Config, lat: Latency, t0: Time, steps: seq<Step>): World
    requires Valid(cfg, lat, t0, steps)
    decreases |steps|, 1
  {
    if steps == [] then Genesis(t0)
    else Apply(cfg, lat, Exec(cfg, lat, t0, Past(steps)), Last(steps))
  }

  lemma {:induction false} PrefixValid(cfg: Config, lat: Latency, t0: Time, steps: seq<Step>, n: nat)
    requires n <= |steps| && Valid(cfg, lat, t0, steps)
    ensures Valid(cfg, lat, t0, steps[..n])
    decreases |steps|
  {
    if n == |steps| {
      assert steps[..n] == steps;
    } else {
      PrefixValid(cfg, lat, t0, Past(steps), n);
      assert Past(steps)[..n] == steps[..n];
    }
  }

  /** One more step, for histories built by hand. */
  lemma Extend(cfg: Config, lat: Latency, t0: Time, steps: seq<Step>, w: World, step: Step)
    requires Valid(cfg, lat, t0, steps) && Exec(cfg, lat, t0, steps) == w && Enabled(cfg, lat, w, step)
    ensures Valid(cfg, lat, t0, steps + [step])
    ensures Exec(cfg, lat, t0, steps + [step]) == Apply(cfg, lat, w, step)
  {
    assert Past(steps + [step]) == steps;
  }

  /** The state a history had reached before its i-th step. */
  ghost function StateAt(cfg: Config, lat: Latency, t0: Time, steps: seq<Step>, i: nat): World
    requires Valid(cfg, lat, t0, steps) && i <= |steps|
  {
    PrefixValid(cfg, lat, t0, steps, i);
    Exec(cfg, lat, t0, steps[..i])
  }

  lemma StateAfter(cfg: Config, lat: Latency, t0: Time, steps: seq<Step>, i: nat)
    requires Valid(cfg, lat, t0, steps) && i < |steps|
    ensures var w := StateAt(cfg, lat, t0, steps, i);
            Enabled(cfg, lat, w, steps[i]) && StateAt(cfg, lat, t0, steps, i + 1) == Apply(cfg, lat, w, steps[i])
  {
    PrefixValid(cfg, lat, t0, steps, i + 1);
    assert Past(steps[..i + 1]) == steps[..i];
  }

  // ------------------------------------------------------- histories built by hand

  ghost predicate Leads(cfg: Config, lat: Latency, t0: Time, steps: seq<Step>, w: World) {
    Valid(cfg, lat, t0, steps) && Exec(cfg, lat, t0, steps) == w
  }

  lemma TakeStep(cfg: Config, lat: Latency, t0: Time, steps: seq<Step>, w: World, step: Step)
    returns (steps': seq<Step>)
    requires Leads(cfg, lat, t0, steps, w) && Enabled(cfg, lat, w, step)
    ensures steps' == steps + [step] && Leads(cfg, lat, t0, steps', Apply(cfg, lat, w, step))
  {
    steps' := steps + [step];
    Extend(cfg, lat, t0, steps, w, step);
  }

  /** A history passes through the state each of its beginnings leads to. */
  lemma Passes(cfg: Config, lat: Latency, t0: Time, steps: seq<Step>, w: World, steps': seq<Step>)
    requires Leads(cfg, lat, t0, steps, w) && Valid(cfg, lat, t0, steps') && steps <= steps'
    ensures StateAt(cfg, lat, t0, steps', |steps|) == w
  {
    assert steps'[..|steps|] == steps;
  }
}
