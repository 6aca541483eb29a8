/** What the outbox guarantees over whole histories. */
module Guarantees {
  import opened Basics
  import opened Outbox
  import opened World
  import opened Lease
  import opened Histories
  import L = RowLife

  // ------------------------------------------------- field coupling, without the lease

  ghost predicate AllCoupled(db: Db) {
    forall id | id in db.rows :: L.Coupled(db.rows[id]) && id < db.nextRow
  }

  /** In every history, timely or not, each row's claim and block fields match its status. */
  lemma {:induction false} CoupledAlways(cfg: Config, lat: Latency, t0: Time, steps: seq<Step>)
    requires Valid(cfg, lat, t0, steps)
    ensures AllCoupled(Exec(cfg, lat, t0, steps).db)
    decreases |steps|
  {
    if steps != [] {
      CoupledAlways(cfg, lat, t0, Past(steps));
      var w, step := Exec(cfg, lat, t0, Past(steps)), Last(steps);
      var db' := Apply(cfg, lat, w, step).db;
      forall id | id in db'.rows
        ensures L.Coupled(db'.rows[id]) && id < db'.nextRow
      {
        if id in w.db.rows {
          RowFollows(cfg, lat, w, step, id);
          CoupledEvent(cfg, lat, w, step, id);
        } else {
          RowAppears(cfg, lat, w, step, id);
        }
      }
    }
  }

  lemma CoupledEvent(cfg: Config, lat: Latency, w: World, step: Step, id: RowId)
    requires Enabled(cfg, lat, w, step) && AllCoupled(w.db) && id in w.db.rows
    ensures var ev := EventOf(w, step, id);
            ev.Some? ==> L.Coupled(L.After(cfg, w.db.rows[id], ev.value))
    ensures w.db.nextRow <= Apply(cfg, lat, w, step).db.nextRow
  {
    var ev := EventOf(w, step, id);
    if ev.Some? { L.CouplingKept(cfg, w.db.rows[id], ev.value); }
  }

  // ---------------------------------------------------------- claims and their inverses

  /** A released claim leaves no trace on a coupled table. */
  lemma ClaimThenRelease(db: Db, run: RunId, now: Time, size: nat, batch: seq<RowId>)
    requires AllCoupled(db) && IsClaimBatch(db.rows, now, size, batch)
    requires forall id | id in db.rows :: !HeldBy(db.rows[id], run)
    ensures Release(Claim(db, run, now, batch), run) == db
  {
    forall id | id in db.rows
      ensures Release(Claim(db, run, now, batch), run).rows[id] == db.rows[id]
    {
      if id in batch { assert Due(db.rows[id], now); }
    }
  }

  /** A reaped claim costs one attempt on unblocked rows, and nothing else. */
  function Charged(db: Db, batch: seq<RowId>): Db {
    db.(rows := map id | id in db.rows ::
          if id in batch && db.rows[id].blockedSince.None? then db.rows[id].(attempts := db.rows[id].attempts + 1)
          else db.rows[id])
  }

  lemma ReapClaimedRow(row: Row, run: RunId, now: Time, later: Time)
    requires L.Coupled(row) && Due(row, now)
    ensures !Stale(row, later)
    ensures Stale(Claimed(row, run, now), later) <==> later >= now + STALE_AFTER
    ensures Reaped(Claimed(row, run, now)) ==
            if row.blockedSince.None? then row.(attempts := row.attempts + 1) else row
  {
  }

  lemma ClaimThenReap(db: Db, run: RunId, now: Time, size: nat, batch: seq<RowId>, later: Time)
    requires AllCoupled(db) && IsClaimBatch(db.rows, now, size, batch)
    ensures Reap(Claim(db, run, now, batch), later) ==
            if later >= now + STALE_AFTER then Charged(Reap(db, later), batch)
            else Claim(Reap(db, later), run, now, batch)
  {
    forall id | id in db.rows
      ensures Reap(Claim(db, run, now, batch), later).rows[id] ==
              if later >= now + STALE_AFTER then Charged(Reap(db, later), batch).rows[id]
              else Claim(Reap(db, later), run, now, batch).rows[id]
    {
      if id in batch { ReapClaimedRow(db.rows[id], run, now, later); }
    }
  }

  /** The claim order leaves the database no choice of batch. */
  lemma DueBatchUnique(rows: map<RowId, Row>, now: Time, size: nat, a: seq<RowId>, b: seq<RowId>)
    requires IsDueBatch(rows, now, size, a) && IsDueBatch(rows, now, size, b)
    ensures a == b
  {
    var i := 0;
    while i < |a|
      invariant i <= |a| && i <= |b| && a[..i] == b[..i]
    {
      DueBatchAgrees(rows, now, size, a, b, i);
      i := i + 1;
    }
    if i < |b| { DueBatchAgrees(rows, now, size, b, a, i); }
  }

  lemma DueBatchAgrees(rows: map<RowId, Row>, now: Time, size: nat, a: seq<RowId>, b: seq<RowId>, i: nat)
    requires IsDueBatch(rows, now, size, a) && IsDueBatch(rows, now, size, b)
    requires i < |a| && i <= |b| && a[..i] == b[..i]
    ensures i < |b| && a[i] == b[i]
  {
    assert forall k | 0 <= k < i :: a[..i][k] == b[..i][k];
    assert a[i] in a;
    if a[i] in b {
      var j :| 0 <= j < |b| && b[j] == a[i];
    }
    if b[i] in a {
      var j :| 0 <= j < |a| && a[j] == b[i];
    }
    assert b[i] in b;
  }

  /** Once a run has released its claims, it never holds a row again, whatever interleaves. */
  lemma {:induction false} ReleasedForGood(cfg: Config, lat: Latency, t0: Time, steps: seq<Step>, i: nat, j: nat,
          id: RowId)
    requires Valid(cfg, lat, t0, steps) && i < j <= |steps| && steps[i].ReleaseRun?
    requires id in StateAt(cfg, lat, t0, steps, j).db.rows
    ensures !HeldBy(StateAt(cfg, lat, t0, steps, j).db.rows[id], steps[i].run)
    decreases j - i
  {
    var run := steps[i].run;
    StateAfter(cfg, lat, t0, steps, i);
    StateAfter(cfg, lat, t0, steps, j - 1);
    if i + 1 < j {
      var w := StateAt(cfg, lat, t0, steps, j - 1);
      if id in w.db.rows { ReleasedForGood(cfg, lat, t0, steps, i, j - 1, id); }
      PositionAdvances(cfg, lat, t0, steps, i + 1, j - 1, run);
      HeldStep(cfg, lat, w, steps[j - 1], id, run);
    }
  }

  /** A run comes to hold a row only by claiming it. */
  lemma HeldStep(cfg: Config, lat: Latency, w: World, step: Step, id: RowId, run: RunId)
    requires Enabled(cfg, lat, w, step) && id in Apply(cfg, lat, w, step).db.rows
    requires id in w.db.rows ==> !HeldBy(w.db.rows[id], run)
    requires !InPhase(w, run, HasReaped)
    ensures !HeldBy(Apply(cfg, lat, w, step).db.rows[id], run)
  {
    if step.CommitRow? && id in w.db.rows { ProcessEndsHold(cfg, w.db.rows[id], step.x); }
  }

  lemma ProcessEndsHold(cfg: Config, row: Row, x: Inputs)
    ensures Process(cfg, row, x).row.status != Sending
  {
  }

  // ------------------------------------------------------- conservation and absorption

  /** The rows a history has pruned. */
  ghost function PrunedIds(cfg: Config, lat: Latency, t0: Time, steps: seq<Step>): set<RowId>
    requires Valid(cfg, lat, t0, steps)
    decreases |steps|
  {
    if steps == [] then {}
    else
      PrunedIds(cfg, lat, t0, Past(steps)) +
      (Exec(cfg, lat, t0, Past(steps)).db.rows.Keys - Exec(cfg, lat, t0, steps).db.rows.Keys)
  }

  /** The enqueues of a history that were neither blocked nor duplicates. */
  ghost function Inserted(cfg: Config, lat: Latency, t0: Time, steps: seq<Step>): nat
    requires Valid(cfg, lat, t0, steps)
    decreases |steps|
  {
    if steps == [] then 0
    else
      var w, step := Exec(cfg, lat, t0, Past(steps)), Last(steps);
      Inserted(cfg, lat, t0, Past(steps)) +
      if step.Insert? && EnqueueVerdict(w.db.rows, step.q, step.catalog, w.clock).Queues() then 1 else 0
  }

  function FirstIds(n: nat): (ids: set<RowId>)
    ensures |ids| == n
    ensures forall id: nat :: id in ids <==> id < n
  {
    if n == 0 then {} else FirstIds(n - 1) + {n - 1}
  }

  /** Rows ever inserted are the rows present and the rows pruned, with nothing in both. */
  lemma {:induction false} Conservation(cfg: Config, lat: Latency, t0: Time, steps: seq<Step>)
    requires Valid(cfg, lat, t0, steps)
    ensures var db := Exec(cfg, lat, t0, steps).db;
            var pruned := PrunedIds(cfg, lat, t0, steps);
            && db.rows.Keys !! pruned
            && db.rows.Keys + pruned == FirstIds(db.nextRow)
            && Inserted(cfg, lat, t0, steps) == db.nextRow == |db.rows| + |pruned|
    decreases |steps|
  {
    if steps != [] {
      Conservation(cfg, lat, t0, Past(steps));
      var w, step := Exec(cfg, lat, t0, Past(steps)), Last(steps);
      var db := Exec(cfg, lat, t0, steps).db;
      NextRowGrows(cfg, lat, w, step);
      KeysGrow(cfg, lat, w, step);
      KeysCarried(w.db.rows.Keys, PrunedIds(cfg, lat, t0, Past(steps)), w.db.nextRow,
                  db.rows.Keys, PrunedIds(cfg, lat, t0, steps), db.nextRow);
    }
  }

  lemma KeysCarried(keys: set<RowId>, pruned: set<RowId>, n: nat, keys': set<RowId>, pruned': set<RowId>, n': nat)
    requires keys !! pruned && keys + pruned == FirstIds(n)
    requires pruned' == pruned + (keys - keys') && keys' <= FirstIds(n') && n <= n' <= n + 1
    requires if n' == n then keys' <= keys else keys' == keys + {n}
    ensures keys' !! pruned' && keys' + pruned' == FirstIds(n') && |keys'| + |pruned'| == n'
  {
    assert |keys' + pruned'| == |keys'| + |pruned'|;
  }

  lemma KeysGrow(cfg: Config, lat: Latency, w: World, step: Step)
    requires Enabled(cfg, lat, w, step) && w.db.rows.Keys <= FirstIds(w.db.nextRow)
    ensures var db' := Apply(cfg, lat, w, step).db;
            && w.db.nextRow <= db'.nextRow <= w.db.nextRow + 1
            && (if db'.nextRow == w.db.nextRow then db'.rows.Keys <= w.db.rows.Keys
                else db'.rows.Keys == w.db.rows.Keys + {w.db.nextRow})
  {
  }

  lemma NextRowGrows(cfg: Config, lat: Latency, w: World, step: Step)
    requires Enabled(cfg, lat, w, step)
    ensures var db' := Apply(cfg, lat, w, step).db;
            if step.Insert? && EnqueueVerdict(w.db.rows, step.q, step.catalog, w.clock).Queues()
            then db'.nextRow == w.db.nextRow + 1 && w.db.nextRow in db'.rows
            else db'.nextRow == w.db.nextRow && (step.Insert? ==> db' == w.db)
  {
  }

  /** A row leaves the table only by a prune, when it is terminal and past retention. */
  lemma PrunedWhenDone(cfg: Config, lat: Latency, t0: Time, steps: seq<Step>, i: nat, id: RowId)
    requires Valid(cfg, lat, t0, steps) && i < |steps|
    requires id in StateAt(cfg, lat, t0, steps, i).db.rows && id !in StateAt(cfg, lat, t0, steps, i + 1).db.rows
    ensures var w := StateAt(cfg, lat, t0, steps, i);
            && steps[i].PruneRows? && steps[i].run in w.runs
            && Prunable(cfg, w.db.rows[id], w.runs[steps[i].run].now)
  {
    StateAfter(cfg, lat, t0, steps, i);
    PrefixValid(cfg, lat, t0, steps, i);
    CoupledAlways(cfg, lat, t0, steps[..i]);
    RowFollows(cfg, lat, StateAt(cfg, lat, t0, steps, i), steps[i], id);
  }

  /** A terminal row stays exactly as it is until it is pruned or an operator touches it. */
  lemma {:induction false} TerminalAbsorbs(cfg: Config, lat: Latency, t0: Time, steps: seq<Step>, i: nat, j: nat,
          id: RowId)
    requires LeaseFits(cfg, lat) && Valid(cfg, lat, t0, steps) && i <= j <= |steps|
    requires id in StateAt(cfg, lat, t0, steps, i).db.rows
    requires StateAt(cfg, lat, t0, steps, i).db.rows[id].status.Terminal()
    requires forall m | i <= m < j :: steps[m] != RequeueRow(id) && !(steps[m].DetachRow? && steps[m].id == id)
    ensures var rows, rows' := StateAt(cfg, lat, t0, steps, i).db.rows, StateAt(cfg, lat, t0, steps, j).db.rows;
            id in rows' ==> rows'[id] == rows[id]
    decreases j - i
  {
    if i < j {
      TerminalAbsorbs(cfg, lat, t0, steps, i, j - 1, id);
      StateAfter(cfg, lat, t0, steps, j - 1);
      PrefixValid(cfg, lat, t0, steps, i);
      PrefixValid(cfg, lat, t0, steps, j - 1);
      LeaseAlways(cfg, lat, t0, steps[..i]);
      LeaseAlways(cfg, lat, t0, steps[..j - 1]);
      NextRowMonotone(cfg, lat, t0, steps, i, j - 1);
      TerminalStep(cfg, lat, StateAt(cfg, lat, t0, steps, j - 1), steps[j - 1], id);
    }
  }

  lemma TerminalStep(cfg: Config, lat: Latency, w: World, step: Step, id: RowId)
    requires LeaseFits(cfg, lat) && LeaseHeld(cfg, lat, w) && Enabled(cfg, lat, w, step) && id < w.db.nextRow
    requires id in w.db.rows ==> w.db.rows[id].status.Terminal()
    requires step != RequeueRow(id) && !(step.DetachRow? && step.id == id)
    ensures var rows' := Apply(cfg, lat, w, step).db.rows;
            id in rows' ==> id in w.db.rows && rows'[id] == w.db.rows[id]
  {
    if id in w.db.rows {
      RowFollows(cfg, lat, w, step, id);
      if EventOf(w, step, id).Some? { EventLegal(cfg, lat, w, step, id); }
    } else if id in Apply(cfg, lat, w, step).db.rows {
      RowAppears(cfg, lat, w, step, id);
    }
  }

  /** Only a requeue revives a row that has ended. */
  lemma {:induction false} EndedStays(cfg: Config, lat: Latency, t0: Time, steps: seq<Step>, i: nat, j: nat, id: RowId)
    requires LeaseFits(cfg, lat) && Valid(cfg, lat, t0, steps) && i <= j <= |steps|
    requires id in StateAt(cfg, lat, t0, steps, i).db.rows
    requires StateAt(cfg, lat, t0, steps, i).db.rows[id].status.Terminal()
    requires forall m | i <= m < j :: steps[m] != RequeueRow(id)
    ensures var rows' := StateAt(cfg, lat, t0, steps, j).db.rows; id in rows' ==> rows'[id].status.Terminal()
    decreases j - i
  {
    if i < j {
      EndedStays(cfg, lat, t0, steps, i, j - 1, id);
      StateAfter(cfg, lat, t0, steps, j - 1);
      PrefixValid(cfg, lat, t0, steps, i);
      PrefixValid(cfg, lat, t0, steps, j - 1);
      LeaseAlways(cfg, lat, t0, steps[..i]);
      LeaseAlways(cfg, lat, t0, steps[..j - 1]);
      NextRowMonotone(cfg, lat, t0, steps, i, j - 1);
      EndedStep(cfg, lat, StateAt(cfg, lat, t0, steps, j - 1), steps[j - 1], id);
    }
  }

  lemma EndedStep(cfg: Config, lat: Latency, w: World, step: Step, id: RowId)
    requires LeaseFits(cfg, lat) && LeaseHeld(cfg, lat, w) && Enabled(cfg, lat, w, step) && id < w.db.nextRow
    requires id in w.db.rows ==> w.db.rows[id].status.Terminal()
    requires step != RequeueRow(id)
    ensures var rows' := Apply(cfg, lat, w, step).db.rows;
            id in rows' ==> id in w.db.rows && rows'[id].status == w.db.rows[id].status
  {
    if id in w.db.rows {
      RowFollows(cfg, lat, w, step, id);
      if EventOf(w, step, id).Some? { EventLegal(cfg, lat, w, step, id); }
    } else if id in Apply(cfg, lat, w, step).db.rows {
      RowAppears(cfg, lat, w, step, id);
    }
  }

  lemma {:induction false} NextRowMonotone(cfg: Config, lat: Latency, t0: Time, steps: seq<Step>, i: nat, j: nat)
    requires Valid(cfg, lat, t0, steps) && i <= j <= |steps|
    ensures StateAt(cfg, lat, t0, steps, i).db.nextRow <= StateAt(cfg, lat, t0, steps, j).db.nextRow
    decreases j - i
  {
    if i < j {
      NextRowMonotone(cfg, lat, t0, steps, i, j - 1);
      StateAfter(cfg, lat, t0, steps, j - 1);
      NextRowGrows(cfg, lat, StateAt(cfg, lat, t0, steps, j - 1), steps[j - 1]);
    }
  }
}
