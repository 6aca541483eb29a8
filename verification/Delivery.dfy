/** Dedup keys over whole histories. */
module Delivery {
  import opened Basics
  import opened Templates
  import opened Outbox
  import opened World
  import opened Lease
  import opened Histories
  import opened Guarantees
  import opened Ledgers
  import L = RowLife

  // --------------------------------------------------------------------- dedup keys

  ghost predicate KeysDistinct(rows: map<RowId, Row>) {
    forall a, b | a in rows && b in rows && a != b && rows[a].dedupKey.Some? :: rows[a].dedupKey != rows[b].dedupKey
  }

  /** In every history no two rows share a dedup key. */
  lemma {:induction false} KeysAlwaysDistinct(cfg: Config, lat: Latency, t0: Time, steps: seq<Step>)
    requires Valid(cfg, lat, t0, steps)
    ensures KeysDistinct(Exec(cfg, lat, t0, steps).db.rows)
    decreases |steps|
  {
    if steps != [] {
      KeysAlwaysDistinct(cfg, lat, t0, Past(steps));
      CoupledAlways(cfg, lat, t0, Past(steps));
      var w, step := Exec(cfg, lat, t0, Past(steps)), Last(steps);
      var rows' := Apply(cfg, lat, w, step).db.rows;
      forall a | a in rows'
        ensures if a in w.db.rows then rows'[a].dedupKey in {None, w.db.rows[a].dedupKey}
                else a == w.db.nextRow && (rows'[a].dedupKey.Some? ==> !HoldsKey(w.db.rows, rows'[a].dedupKey.value))
      {
        KeyFollows(cfg, lat, w, step, a);
      }
      forall a, b | a in rows' && b in rows' && a != b && rows'[a].dedupKey.Some?
        ensures rows'[a].dedupKey != rows'[b].dedupKey
      {
      }
    }
  }

  /** A step never gives a present row another key, and a new row's key was free. */
  lemma KeyFollows(cfg: Config, lat: Latency, w: World, step: Step, id: RowId)
    requires Enabled(cfg, lat, w, step) && AllCoupled(w.db) && id in Apply(cfg, lat, w, step).db.rows
    ensures var key := Apply(cfg, lat, w, step).db.rows[id].dedupKey;
            if id in w.db.rows then key in {None, w.db.rows[id].dedupKey}
            else id == w.db.nextRow && (key.Some? ==> !HoldsKey(w.db.rows, key.value))
  {
    if id in w.db.rows {
      RowFollows(cfg, lat, w, step, id);
      var ev := EventOf(w, step, id);
      if ev.Some? { KeyAfter(cfg, w.db.rows[id], ev.value); }
    } else {
      RowAppears(cfg, lat, w, step, id);
    }
  }

  lemma KeyAfter(cfg: Config, row: Row, ev: L.Event)
    ensures L.After(cfg, row, ev).dedupKey in {None, row.dedupKey}
  {
  }

  /** The key a row was created with. */
  ghost function KeyAtBirth(cfg: Config, lat: Latency, t0: Time, steps: seq<Step>, id: RowId): Option<string>
    requires Valid(cfg, lat, t0, steps)
  {
    var s := StoryOf(cfg, lat, t0, steps, id);
    if s.Story? then s.born.dedupKey else None
  }

  predicate EverRequeued(steps: seq<Step>, id: RowId) { RequeueRow(id) in steps }

  lemma {:induction false} RequeuesBooked(cfg: Config, lat: Latency, t0: Time, steps: seq<Step>, id: RowId)
    requires Valid(cfg, lat, t0, steps)
    ensures LedgerOf(cfg, lat, t0, steps, id).requeues > 0 <==> EverRequeued(steps, id)
    decreases |steps|
  {
    if steps != [] {
      RequeuesBooked(cfg, lat, t0, Past(steps), id);
      LedgerFollows(cfg, lat, t0, steps, id);
      assert steps == Past(steps) + [Last(steps)];
    }
  }

  /** A row owns the key it was created with until it first fails or is cancelled. */
  lemma KeyOwned(cfg: Config, lat: Latency, t0: Time, steps: seq<Step>, id: RowId)
    requires cfg.Positive() && LeaseFits(cfg, lat) && Valid(cfg, lat, t0, steps)
    requires id in Exec(cfg, lat, t0, steps).db.rows
    ensures var row := Exec(cfg, lat, t0, steps).db.rows[id];
            row.dedupKey == if row.status.FreesKey() || EverRequeued(steps, id) then None
                            else KeyAtBirth(cfg, lat, t0, steps, id)
  {
    EveryRowHasItsStory(cfg, lat, t0, steps, id);
    EveryLifeIsLegal(cfg, lat, t0, steps, id);
    RequeuesBooked(cfg, lat, t0, steps, id);
    var s := StoryOf(cfg, lat, t0, steps, id);
    L.LifeKeeps(cfg, s.born, s.events);
  }

  /** A row created with this key that has neither failed nor been cancelled. */
  ghost predicate LiveUnder(cfg: Config, lat: Latency, t0: Time, steps: seq<Step>, key: Option<string>, id: RowId)
    requires Valid(cfg, lat, t0, steps)
  {
    var rows := Exec(cfg, lat, t0, steps).db.rows;
    id in rows && KeyAtBirth(cfg, lat, t0, steps, id) == key && !rows[id].status.FreesKey()
  }

  /** Of the rows created with one key and never requeued, at most one is neither failed nor
      cancelled; so at most one of them is ever sent or suppressed. */
  lemma OneLiveRowPerKey(cfg: Config, lat: Latency, t0: Time, steps: seq<Step>, key: string, a: RowId, b: RowId)
    requires cfg.Positive() && LeaseFits(cfg, lat) && Valid(cfg, lat, t0, steps)
    requires LiveUnder(cfg, lat, t0, steps, Some(key), a) && LiveUnder(cfg, lat, t0, steps, Some(key), b)
    requires !EverRequeued(steps, a) && !EverRequeued(steps, b)
    ensures a == b
  {
    KeyOwned(cfg, lat, t0, steps, a);
    KeyOwned(cfg, lat, t0, steps, b);
    KeysAlwaysDistinct(cfg, lat, t0, steps);
  }

  /** An unblocked enqueue is a duplicate exactly when a present row created with its key, and
      never requeued, has neither failed nor been cancelled. */
  lemma DuplicateExactly(cfg: Config, lat: Latency, t0: Time, steps: seq<Step>, q: Request, c: Catalog)
    requires cfg.Positive() && LeaseFits(cfg, lat) && Valid(cfg, lat, t0, steps)
    requires q.dedupKey.Some? && BlockedBy(q, c, Exec(cfg, lat, t0, steps).clock).None?
    ensures var w := Exec(cfg, lat, t0, steps);
            EnqueueVerdict(w.db.rows, q, c, w.clock) == Duplicate <==>
            exists id :: LiveUnder(cfg, lat, t0, steps, q.dedupKey, id) && !EverRequeued(steps, id)
  {
    var rows := Exec(cfg, lat, t0, steps).db.rows;
    forall id | id in rows
      ensures rows[id].dedupKey == q.dedupKey <==>
              LiveUnder(cfg, lat, t0, steps, q.dedupKey, id) && !EverRequeued(steps, id)
    {
      KeyOwned(cfg, lat, t0, steps, id);
    }
  }

  // ------------------------------------------------- one live row per key, step by step

  /** At most one row created with the key is neither failed nor cancelled. */
  ghost predicate UniqueLive(cfg: Config, lat: Latency, t0: Time, steps: seq<Step>, key: string)
    requires Valid(cfg, lat, t0, steps)
  {
    forall a, b | LiveUnder(cfg, lat, t0, steps, Some(key), a) && LiveUnder(cfg, lat, t0, steps, Some(key), b) :: a == b
  }

  /** The operator requeues a row whose key has another live row, or the key is enqueued again
      while its live row was requeued. */
  ghost predicate BreaksUnique(cfg: Config, lat: Latency, t0: Time, past: seq<Step>, key: string, step: Step)
    requires Valid(cfg, lat, t0, past)
  {
    match step
    case RequeueRow(id) =>
      && KeyAtBirth(cfg, lat, t0, past, id) == Some(key)
      && exists other :: other != id && LiveUnder(cfg, lat, t0, past, Some(key), other)
    case Insert(q, c) =>
      && q.dedupKey == Some(key) && BlockedBy(q, c, Exec(cfg, lat, t0, past).clock).None?
      && exists id :: LiveUnder(cfg, lat, t0, past, Some(key), id) && EverRequeued(past, id)
    case _ => false
  }

  /** A row is live because it was, or by its own requeue or insert. */
  lemma LiveCame(cfg: Config, lat: Latency, t0: Time, steps: seq<Step>, key: string, id: RowId)
    requires LeaseFits(cfg, lat) && Valid(cfg, lat, t0, steps) && steps != []
    requires LiveUnder(cfg, lat, t0, steps, Some(key), id)
    ensures var past, step := Past(steps), Last(steps);
            var w := Exec(cfg, lat, t0, past);
            || LiveUnder(cfg, lat, t0, past, Some(key), id)
            || (step == RequeueRow(id) && KeyAtBirth(cfg, lat, t0, past, id) == Some(key))
            || (&& step.Insert? && step.q.dedupKey == Some(key) && id == w.db.nextRow
                && EnqueueVerdict(w.db.rows, step.q, step.catalog, w.clock).Queues())
  {
    var past, step := Past(steps), Last(steps);
    var w := Exec(cfg, lat, t0, past);
    EveryRowHasItsStory(cfg, lat, t0, past, id);
    LeaseAlways(cfg, lat, t0, past);
    if id in w.db.rows {
      if step != RequeueRow(id) && w.db.rows[id].status.FreesKey() {
        EndedStep(cfg, lat, w, step, id);
        assert false;
      }
    } else {
      RowAppears(cfg, lat, w, step, id);
    }
  }

  /** Requeues of other rows and inserts leave a live row live. */
  lemma LiveStays(cfg: Config, lat: Latency, t0: Time, steps: seq<Step>, key: string, id: RowId)
    requires Valid(cfg, lat, t0, steps) && steps != [] && (Last(steps).RequeueRow? || Last(steps).Insert?)
    requires LiveUnder(cfg, lat, t0, Past(steps), Some(key), id)
    ensures LiveUnder(cfg, lat, t0, steps, Some(key), id)
  {
    EveryRowHasItsStory(cfg, lat, t0, Past(steps), id);
    RowFollows(cfg, lat, Exec(cfg, lat, t0, Past(steps)), Last(steps), id);
  }

  /** A requeue or an insert that queues makes its row live. */
  lemma LiveMade(cfg: Config, lat: Latency, t0: Time, steps: seq<Step>, key: string, id: RowId)
    requires Valid(cfg, lat, t0, steps) && steps != []
    requires var past, step := Past(steps), Last(steps);
             var w := Exec(cfg, lat, t0, past);
             || (step == RequeueRow(id) && KeyAtBirth(cfg, lat, t0, past, id) == Some(key))
             || (&& step.Insert? && step.q.dedupKey == Some(key) && id == w.db.nextRow
                 && EnqueueVerdict(w.db.rows, step.q, step.catalog, w.clock).Queues())
    ensures LiveUnder(cfg, lat, t0, steps, Some(key), id)
  {
    EveryRowHasItsStory(cfg, lat, t0, Past(steps), id);
  }

  /** Within the lease, these are exactly the steps that break uniqueness. */
  lemma UniqueStep(cfg: Config, lat: Latency, t0: Time, steps: seq<Step>, key: string)
    requires cfg.Positive() && LeaseFits(cfg, lat) && Valid(cfg, lat, t0, steps) && steps != []
    requires UniqueLive(cfg, lat, t0, Past(steps), key)
    ensures !UniqueLive(cfg, lat, t0, steps, key) <==> BreaksUnique(cfg, lat, t0, Past(steps), key, Last(steps))
  {
    var past, step := Past(steps), Last(steps);
    if BreaksUnique(cfg, lat, t0, past, key, step) {
      BreakShows(cfg, lat, t0, steps, key);
    } else {
      forall a, b | LiveUnder(cfg, lat, t0, steps, Some(key), a) && LiveUnder(cfg, lat, t0, steps, Some(key), b)
        ensures a == b
      {
        NoBreak(cfg, lat, t0, steps, key, a, b);
      }
    }
  }

  lemma BreakShows(cfg: Config, lat: Latency, t0: Time, steps: seq<Step>, key: string)
    requires cfg.Positive() && LeaseFits(cfg, lat) && Valid(cfg, lat, t0, steps) && steps != []
    requires UniqueLive(cfg, lat, t0, Past(steps), key) && BreaksUnique(cfg, lat, t0, Past(steps), key, Last(steps))
    ensures !UniqueLive(cfg, lat, t0, steps, key)
  {
    var past, step := Past(steps), Last(steps);
    var w := Exec(cfg, lat, t0, past);
    if step.RequeueRow? {
      var other :| other != step.id && LiveUnder(cfg, lat, t0, past, Some(key), other);
      LiveStays(cfg, lat, t0, steps, key, other);
      LiveMade(cfg, lat, t0, steps, key, step.id);
    } else {
      var id :| LiveUnder(cfg, lat, t0, past, Some(key), id) && EverRequeued(past, id);
      DuplicateExactly(cfg, lat, t0, past, step.q, step.catalog);
      EveryRowHasItsStory(cfg, lat, t0, past, id);
      LiveStays(cfg, lat, t0, steps, key, id);
      LiveMade(cfg, lat, t0, steps, key, w.db.nextRow);
    }
  }

  lemma NoBreak(cfg: Config, lat: Latency, t0: Time, steps: seq<Step>, key: string, a: RowId, b: RowId)
    requires cfg.Positive() && LeaseFits(cfg, lat) && Valid(cfg, lat, t0, steps) && steps != []
    requires UniqueLive(cfg, lat, t0, Past(steps), key) && !BreaksUnique(cfg, lat, t0, Past(steps), key, Last(steps))
    requires LiveUnder(cfg, lat, t0, steps, Some(key), a) && LiveUnder(cfg, lat, t0, steps, Some(key), b)
    ensures a == b
  {
    LiveCame(cfg, lat, t0, steps, key, a);
    LiveCame(cfg, lat, t0, steps, key, b);
    if Last(steps).Insert? && Last(steps).q.dedupKey == Some(key) {
      var w := Exec(cfg, lat, t0, Past(steps));
      if EnqueueVerdict(w.db.rows, Last(steps).q, Last(steps).catalog, w.clock).Queues() {
        DuplicateExactly(cfg, lat, t0, Past(steps), Last(steps).q, Last(steps).catalog);
      }
    }
  }

  ghost predicate AlwaysUnique(cfg: Config, lat: Latency, t0: Time, steps: seq<Step>, key: string)
    requires Valid(cfg, lat, t0, steps)
  {
    UniqueLive(cfg, lat, t0, steps, key) && (steps != [] ==> AlwaysUnique(cfg, lat, t0, Past(steps), key))
  }

  ghost predicate NeverBroken(cfg: Config, lat: Latency, t0: Time, steps: seq<Step>, key: string)
    requires Valid(cfg, lat, t0, steps)
  {
    steps != [] ==>
      && NeverBroken(cfg, lat, t0, Past(steps), key)
      && !BreaksUnique(cfg, lat, t0, Past(steps), key, Last(steps))
  }

  /** So a key has at most one live row throughout a history exactly when no requeue meets
      another live row of its key and no enqueue of the key meets a requeued one. */
  lemma {:induction false} UniqueExactly(cfg: Config, lat: Latency, t0: Time, steps: seq<Step>, key: string)
    requires cfg.Positive() && LeaseFits(cfg, lat) && Valid(cfg, lat, t0, steps)
    ensures AlwaysUnique(cfg, lat, t0, steps, key) <==> NeverBroken(cfg, lat, t0, steps, key)
    decreases |steps|
  {
    if steps != [] {
      UniqueExactly(cfg, lat, t0, Past(steps), key);
      if AlwaysUnique(cfg, lat, t0, Past(steps), key) {
        AlwaysIsNow(cfg, lat, t0, Past(steps), key);
        UniqueStep(cfg, lat, t0, steps, key);
      }
    }
  }

  lemma AlwaysIsNow(cfg: Config, lat: Latency, t0: Time, steps: seq<Step>, key: string)
    requires Valid(cfg, lat, t0, steps) && AlwaysUnique(cfg, lat, t0, steps, key)
    ensures UniqueLive(cfg, lat, t0, steps, key)
  {
  }

  // -------------------------------------------------------- what an enqueue is refused for

  /** What the key is for: an enqueue is refused exactly while an earlier row with its key is
      neither failed nor cancelled. */
  ghost predicate DedupKept(cfg: Config, lat: Latency, t0: Time, steps: seq<Step>, q: Request, c: Catalog)
    requires Valid(cfg, lat, t0, steps)
  {
    var w := Exec(cfg, lat, t0, steps);
    EnqueueVerdict(w.db.rows, q, c, w.clock) == Duplicate <==>
    exists id :: LiveUnder(cfg, lat, t0, steps, q.dedupKey, id)
  }

  /** A corollary of DuplicateExactly: it holds exactly when the live rows with the key, if there
      are any, do not all owe their life to an operator's requeue. */
  lemma DedupExact(cfg: Config, lat: Latency, t0: Time, steps: seq<Step>, q: Request, c: Catalog)
    requires cfg.Positive() && LeaseFits(cfg, lat) && Valid(cfg, lat, t0, steps)
    requires q.dedupKey.Some? && BlockedBy(q, c, Exec(cfg, lat, t0, steps).clock).None?
    ensures DedupKept(cfg, lat, t0, steps, q, c) <==>
            ((exists id :: LiveUnder(cfg, lat, t0, steps, q.dedupKey, id)) ==>
             exists id :: LiveUnder(cfg, lat, t0, steps, q.dedupKey, id) && !EverRequeued(steps, id))
  {
    DuplicateExactly(cfg, lat, t0, steps, q, c);
  }

  /** And it does fail: after a withdrawal and a requeue the row is live, yet the same
      notification is queued again. */
  lemma DedupFails(cfg: Config, lat: Latency, key: string)
    ensures var steps := [Again(key), WithdrawRow(0), RequeueRow(0)];
            && Valid(cfg, lat, 0, steps) && LiveUnder(cfg, lat, 0, steps, Some(key), 0)
            && !DedupKept(cfg, lat, 0, steps, Again(key).q, PLAIN)
  {
    var w, s := ThenWithdrawn(cfg, lat, key);
    var before, steps := Revival(key)[..2], [Again(key), WithdrawRow(0), RequeueRow(0)];
    Extend(cfg, lat, 0, before, w, RequeueRow(0));
    assert before + [RequeueRow(0)] == steps && Past(steps) == before;
    var rows := Exec(cfg, lat, 0, steps).db.rows;
    assert rows == map[0 := Requeued(w.db.rows[0], 0)];
    assert !HoldsKey(rows, key);
    assert LiveUnder(cfg, lat, 0, steps, Some(key), 0);
  }

  // The history in which a requeue revives a row whose key was given away.

  function Again(key: string): Step { Insert(REQUEST.(dedupKey := Some(key)), PLAIN) }

  function Revival(key: string): seq<Step> { [Again(key), WithdrawRow(0), Again(key), RequeueRow(0)] }

  ghost predicate Revives(cfg: Config, lat: Latency, key: string, n: nat, w: World, s0: Story, s1: Story)
    requires n <= 4
  {
    var steps := Revival(key)[..n];
    && Valid(cfg, lat, 0, steps) && Exec(cfg, lat, 0, steps) == w
    && StoryOf(cfg, lat, 0, steps, 0) == s0 && StoryOf(cfg, lat, 0, steps, 1) == s1
  }

  lemma ReviveStep(cfg: Config, lat: Latency, key: string, n: nat, w: World, s0: Story, s1: Story, w': World)
    requires n < 4 && Revives(cfg, lat, key, n, w, s0, s1)
    requires Enabled(cfg, lat, w, Revival(key)[n]) && w' == Apply(cfg, lat, w, Revival(key)[n])
    ensures var step := Revival(key)[n];
            Revives(cfg, lat, key, n + 1, w', NextStory(cfg, lat, w, s0, step, 0), NextStory(cfg, lat, w, s1, step, 1))
  {
    var steps := Revival(key);
    Extend(cfg, lat, 0, steps[..n], w, steps[n]);
    assert steps[..n] + [steps[n]] == steps[..n + 1];
    assert Past(steps[..n + 1]) == steps[..n];
  }

  lemma FirstQueued(cfg: Config, lat: Latency, key: string)
    ensures var row := NewRow(Again(key).q, PLAIN, 0);
            Revives(cfg, lat, key, 1, World(0, Db(map[0 := row], 1, [], 0, []), map[]), Story(row, None, []), Unborn)
  {
    var row := NewRow(Again(key).q, PLAIN, 0);
    assert Revival(key)[..0] == [];
    ReviveStep(cfg, lat, key, 0, Genesis(0), Unborn, Unborn, World(0, Db(map[0 := row], 1, [], 0, []), map[]));
  }

  lemma ThenWithdrawn(cfg: Config, lat: Latency, key: string) returns (w: World, s: Story)
    ensures var row := NewRow(Again(key).q, PLAIN, 0);
            && Revives(cfg, lat, key, 2, w, s, Unborn) && s.Story? && s.born == row
            && w.db.rows == map[0 := Withdrawn(row).row] && w.db.nextRow == 1 && w.clock == 0
  {
    FirstQueued(cfg, lat, key);
    var row := NewRow(Again(key).q, PLAIN, 0);
    var w1 := World(0, Db(map[0 := row], 1, [], 0, []), map[]);
    w := Apply(cfg, lat, w1, WithdrawRow(0));
    s := NextStory(cfg, lat, w1, Story(row, None, []), WithdrawRow(0), 0);
    ReviveStep(cfg, lat, key, 1, w1, Story(row, None, []), Unborn, w);
  }

  lemma ThenReinserted(cfg: Config, lat: Latency, key: string) returns (w: World, s: Story)
    ensures var row := NewRow(Again(key).q, PLAIN, 0);
            && Revives(cfg, lat, key, 3, w, s, Story(row, None, [])) && s.Story? && s.born == row
            && w.db.rows == map[0 := Withdrawn(row).row, 1 := row]
  {
    var w2, s2 := ThenWithdrawn(cfg, lat, key);
    var row := NewRow(Again(key).q, PLAIN, 0);
    assert !HoldsKey(w2.db.rows, key);
    w := Apply(cfg, lat, w2, Again(key));
    s := s2;
    ReviveStep(cfg, lat, key, 2, w2, s2, Unborn, w);
  }

  /** Uniqueness does fail: a requeue revives a row whose key was given away, beside the live row
      that has it now. */
  lemma RequeueDefeatsDedup(cfg: Config, lat: Latency, key: string)
    ensures var steps := Revival(key);
            && Valid(cfg, lat, 0, steps)
            && KeyAtBirth(cfg, lat, 0, steps, 0) == KeyAtBirth(cfg, lat, 0, steps, 1) == Some(key)
            && !UniqueLive(cfg, lat, 0, steps, key)
            && var rows := Exec(cfg, lat, 0, steps).db.rows;
               0 in rows && 1 in rows && rows[0].status == rows[1].status == Queued && rows[0].dedupKey.None?
  {
    var w, s := ThenReinserted(cfg, lat, key);
    var row := NewRow(Again(key).q, PLAIN, 0);
    ReviveStep(cfg, lat, key, 3, w, s, Story(row, None, []), Apply(cfg, lat, w, RequeueRow(0)));
    var steps := Revival(key);
    assert steps[..4] == steps;
    assert LiveUnder(cfg, lat, 0, steps, Some(key), 0) && LiveUnder(cfg, lat, 0, steps, Some(key), 1);
  }

  // ---------------------------------------------------- what the tables cannot tell

  /** The same rows, the first of them queued without a key. */
  function Keyless(key: string): seq<Step> { [Insert(REQUEST, PLAIN), WithdrawRow(0), Again(key)] }

  lemma KeylessReaches(cfg: Config, lat: Latency, key: string, w: World)
    requires var gone := Withdrawn(NewRow(Again(key).q, PLAIN, 0)).row;
             && w.db.rows == map[0 := gone] && w.db.nextRow == 1 && w.clock == 0 && w.runs == map[]
             && w == Apply(cfg, lat, World(0, Db(map[0 := NewRow(Again(key).q, PLAIN, 0)], 1, [], 0, []), map[]),
                           WithdrawRow(0))
    ensures Valid(cfg, lat, 0, Keyless(key)) && Exec(cfg, lat, 0, Keyless(key)) == Apply(cfg, lat, w, Again(key))
    ensures KeyAtBirth(cfg, lat, 0, Keyless(key), 0).None?
  {
    var steps := Keyless(key);
    var row := NewRow(REQUEST, PLAIN, 0);
    var w1 := World(0, Db(map[0 := row], 1, [], 0, []), map[]);
    Extend(cfg, lat, 0, [], Genesis(0), steps[0]);
    assert [] + [steps[0]] == steps[..1] && Past(steps[..1]) == [];
    Extend(cfg, lat, 0, steps[..1], w1, steps[1]);
    assert steps[..1] + [steps[1]] == steps[..2] && Past(steps[..2]) == steps[..1];
    assert Apply(cfg, lat, w1, WithdrawRow(0)).db.rows == w.db.rows;
    Extend(cfg, lat, 0, steps[..2], w, steps[2]);
    assert steps[..2] + [steps[2]] == steps && Past(steps) == steps[..2];
    assert StoryOf(cfg, lat, 0, steps[..1], 0) == Story(row, None, []);
    var s := StoryOf(cfg, lat, 0, steps[..2], 0);
    assert s.Story? && s.born == row;
  }

  /** No test on the tables decides which requeue breaks uniqueness: after these two histories
      they are equal, and the same requeue breaks it in one and not in the other. */
  lemma TablesCannotTell(cfg: Config, lat: Latency, key: string)
    ensures var a, b := Revival(key)[..3], Keyless(key);
            && Valid(cfg, lat, 0, a) && Valid(cfg, lat, 0, b)
            && Exec(cfg, lat, 0, a).db == Exec(cfg, lat, 0, b).db
            && BreaksUnique(cfg, lat, 0, a, key, RequeueRow(0)) && !BreaksUnique(cfg, lat, 0, b, key, RequeueRow(0))
  {
    FirstQueued(cfg, lat, key);
    var row := NewRow(Again(key).q, PLAIN, 0);
    var w1 := World(0, Db(map[0 := row], 1, [], 0, []), map[]);
    var w := Apply(cfg, lat, w1, WithdrawRow(0));
    var s := NextStory(cfg, lat, w1, Story(row, None, []), WithdrawRow(0), 0);
    ReviveStep(cfg, lat, key, 1, w1, Story(row, None, []), Unborn, w);
    assert !HoldsKey(w.db.rows, key);
    ReviveStep(cfg, lat, key, 2, w, s, Unborn, Apply(cfg, lat, w, Again(key)));
    KeylessReaches(cfg, lat, key, w);
    assert LiveUnder(cfg, lat, 0, Revival(key)[..3], Some(key), 1);
  }
}
