/** send_submission_reminders of app/services/notifications.py: one outbox row per department
    recipient, one transaction per department. */
module Reminders {
  import opened Basics
  import opened Templates
  import opened Outbox
  import opened DedupKey
  import opened Drainer

  datatype Target = Target(department: int, code: string, recipients: seq<string>)

  /** What one enqueue meets: a failing insert, or the template rows and the clock. */
  datatype Reply = Reply(fault: bool, catalog: Catalog, now: Time, calendar: DateTime)

  /** What one department meets. */
  datatype Desk = Desk(present: bool, commits: bool, replies: nat -> Reply)

  datatype Context = Context(templateKey: string, event: int, targets: seq<Target>, desk: nat -> Desk)

  datatype Summary = Summary(
    targetsTotal: nat,
    withRecipients: nat,
    withoutRecipients: seq<string>,
    rowsQueued: nat,
    rowsBlocked: nat,
    recipientsTotal: nat,
    dryRun: bool)

  /** How one recipient fared. The summary reports only some of these. */
  datatype Fate = WasQueued | WasBlocked | WasDuplicate | HadError | RolledBack

  function KeyFor(cx: Context, t: Target, email: string, calendar: DateTime): string {
    BuildKey(Args("submission_reminder", None, Some(cx.event), Some(t.department), email, calendar, None))
  }

  function RequestFor(cx: Context, t: Target, email: string, calendar: DateTime): Request {
    Request(cx.templateKey, email, None, Some(cx.event), Some(t.department), Some(KeyFor(cx, t, email, calendar)), None)
  }

  function FateOf(outcome: EnqueueOutcome): Fate {
    if outcome.Queues() then WasQueued else if outcome.Blocks() then WasBlocked else WasDuplicate
  }

  /** One recipient: a failing insert costs that recipient and nothing else. */
  function RemindOne(cx: Context, t: Target, email: string, r: Reply, db: Db): (Db, Fate) {
    if r.fault then (db, HadError)
    else
      var q := RequestFor(cx, t, email, r.calendar);
      (Enqueue(db, q, r.catalog, r.now), FateOf(EnqueueVerdict(db.rows, q, r.catalog, r.now)))
  }

  datatype Progress = Progress(db: Db, fates: seq<Fate>)

  /** Steps 0 to n - 1, one after another. */
  function Iterate(step: (nat, Progress) -> Progress, n: nat, p: Progress): Progress {
    if n == 0 then p else step(n - 1, Iterate(step, n - 1, p))
  }

  /** What each step keeps, the whole keeps. */
  lemma {:induction false} IterateKeeps(step: (nat, Progress) -> Progress, n: nat, p: Progress,
          inv: (nat, Progress) -> bool)
    requires inv(0, p) && forall i: nat, q | i < n && inv(i, q) :: inv(i + 1, step(i, q))
    ensures inv(n, Iterate(step, n, p))
  {
    if n > 0 { IterateKeeps(step, n - 1, p, inv); }
  }

  function AfterOne(cx: Context, t: Target, desk: Desk, j: nat, p: Progress): Progress
    requires j < |t.recipients|
  {
    var (db', fate) := RemindOne(cx, t, t.recipients[j], desk.replies(j), p.db);
    Progress(db', p.fates + [fate])
  }

  function OneStep(cx: Context, t: Target, desk: Desk): (nat, Progress) -> Progress {
    (j: nat, p: Progress) => if j < |t.recipients| then AfterOne(cx, t, desk, j, p) else p
  }

  /** The first n recipients of a department, in one transaction. */
  function RemindDesk(cx: Context, t: Target, desk: Desk, n: nat, db: Db): Progress {
    Iterate(OneStep(cx, t, desk), n, Progress(db, []))
  }

  lemma NextOne(cx: Context, t: Target, desk: Desk, n: nat, db: Db)
    requires n < |t.recipients|
    ensures RemindDesk(cx, t, desk, n + 1, db) == AfterOne(cx, t, desk, n, RemindDesk(cx, t, desk, n, db))
  {
  }

  /** A failed commit takes back the rows it would have kept. */
  function Undone(fates: seq<Fate>): seq<Fate> {
    seq(|fates|, i requires 0 <= i < |fates| => if fates[i] == WasQueued then RolledBack else fates[i])
  }

  function AfterDesk(cx: Context, i: nat, p: Progress): Progress
    requires i < |cx.targets|
  {
    var t, desk := cx.targets[i], cx.desk(i);
    if t.recipients == [] || !desk.present then p
    else
      var q := RemindDesk(cx, t, desk, |t.recipients|, p.db);
      if desk.commits then Progress(q.db, p.fates + q.fates) else Progress(p.db, p.fates + Undone(q.fates))
  }

  function DeskStep(cx: Context): (nat, Progress) -> Progress {
    (i: nat, p: Progress) => if i < |cx.targets| then AfterDesk(cx, i, p) else p
  }

  /** The run once the first n departments are done. */
  function AfterDesks(cx: Context, n: nat, db: Db): Progress { Iterate(DeskStep(cx), n, Progress(db, [])) }

  lemma NextDesk(cx: Context, n: nat, db: Db)
    requires n < |cx.targets|
    ensures AfterDesks(cx, n + 1, db) == AfterDesk(cx, n, AfterDesks(cx, n, db))
  {
  }

  function WithRecipients(targets: seq<Target>): nat {
    if targets == [] then 0
    else WithRecipients(targets[..|targets| - 1]) + if targets[|targets| - 1].recipients != [] then 1 else 0
  }

  function CodesWithout(targets: seq<Target>): seq<string> {
    if targets == [] then []
    else
      CodesWithout(targets[..|targets| - 1]) +
      if targets[|targets| - 1].recipients == [] then [targets[|targets| - 1].code] else []
  }

  /** The summary of a run in which the recipients considered so far fared like this. */
  function Report(cx: Context, fates: seq<Fate>, dryRun: bool): Summary {
    Summary(|cx.targets|, WithRecipients(cx.targets), CodesWithout(cx.targets), CountOf(fates, WasQueued),
            CountOf(fates, WasBlocked), |fates|, dryRun)
  }

  // ------------------------------------------------------------- the run as a method

  method SendSubmissionReminders(tables: Tables, cx: Context, dryRun: bool) returns (summary: Summary)
    modifies tables
    ensures var p := if dryRun then Progress(old(tables.Contents()), [])
                     else AfterDesks(cx, |cx.targets|, old(tables.Contents()));
            tables.Contents() == p.db && summary == Report(cx, p.fates, dryRun)
  {
    ghost var p := Progress(tables.Contents(), []);
    if dryRun {
      return Summary(|cx.targets|, WithRecipients(cx.targets), CodesWithout(cx.targets), 0, 0, 0, true);
    }
    var queued, blocked, considered, i := 0, 0, 0, 0;
    while i < |cx.targets|
      invariant i <= |cx.targets| && p == AfterDesks(cx, i, old(tables.Contents()))
      invariant tables.Contents() == p.db
      invariant queued == CountOf(p.fates, WasQueued) && blocked == CountOf(p.fates, WasBlocked)
      invariant considered == |p.fates|
    {
      ghost var next := AfterDesk(cx, i, p);
      var n, q, b := RemindTarget(tables, cx, i, p);
      considered, queued, blocked := considered + n, queued + q, blocked + b;
      NextDesk(cx, i, old(tables.Contents()));
      p := next;
      i := i + 1;
    }
    summary := Summary(|cx.targets|, WithRecipients(cx.targets), CodesWithout(cx.targets), queued, blocked, considered,
                       false);
  }

  /** One target: skipped, or queued and then committed or rolled back. */
  method RemindTarget(tables: Tables, cx: Context, i: nat, ghost p: Progress)
    returns (considered: nat, queued: nat, blocked: nat)
    requires i < |cx.targets| && p.db == tables.Contents()
    modifies tables
    ensures var p' := AfterDesk(cx, i, p);
            && tables.Contents() == p'.db && |p'.fates| == |p.fates| + considered
            && CountOf(p'.fates, WasQueued) == CountOf(p.fates, WasQueued) + queued
            && CountOf(p'.fates, WasBlocked) == CountOf(p.fates, WasBlocked) + blocked
  {
    var t, desk := cx.targets[i], cx.desk(i);
    considered, queued, blocked := 0, 0, 0;
    if t.recipients != [] && desk.present {
      var rows, nextRow := tables.rows, tables.nextRow;
      ghost var fates := RemindDesk(cx, t, desk, |t.recipients|, p.db).fates;
      queued, blocked := QueueRecipients(tables, cx, t, desk);
      considered := |t.recipients|;
      CountsAfter(p.fates, fates);
      if !desk.commits {
        tables.rows, tables.nextRow := rows, nextRow;
        queued := 0;
      }
    }
  }

  /** Counting a department's fates after the others, committed or undone. */
  lemma CountsAfter(past: seq<Fate>, fates: seq<Fate>)
    ensures forall f :: CountOf(past + fates, f) == CountOf(past, f) + CountOf(fates, f)
    ensures forall f :: CountOf(past + Undone(fates), f) == CountOf(past, f) + CountOf(Undone(fates), f)
    ensures CountOf(Undone(fates), WasQueued) == 0 && CountOf(Undone(fates), WasBlocked) == CountOf(fates, WasBlocked)
    ensures CountOf(Undone(fates), WasDuplicate) == CountOf(fates, WasDuplicate)
    ensures CountOf(Undone(fates), HadError) == CountOf(fates, HadError)
  {
    forall f
      ensures CountOf(past + fates, f) == CountOf(past, f) + CountOf(fates, f)
      ensures CountOf(past + Undone(fates), f) == CountOf(past, f) + CountOf(Undone(fates), f)
    {
      CountConcat(past, fates, f);
      CountConcat(past, Undone(fates), f);
    }
    UndoneCounts(fates);
  }

  lemma {:induction false} CountConcat(a: seq<Fate>, b: seq<Fate>, f: Fate)
    ensures CountOf(a + b, f) == CountOf(a, f) + CountOf(b, f)
  {
    if b == [] {
      assert a + b == a;
    } else {
      CountConcat(a, b[..|b| - 1], f);
      assert (a + b)[..|a + b| - 1] == a + b[..|b| - 1];
    }
  }

  lemma {:induction false} UndoneCounts(fates: seq<Fate>)
    ensures CountOf(Undone(fates), WasQueued) == 0
    ensures forall f | f in {WasBlocked, WasDuplicate, HadError} :: CountOf(Undone(fates), f) == CountOf(fates, f)
  {
    if fates != [] {
      var past := fates[..|fates| - 1];
      UndoneCounts(past);
      assert Undone(fates)[..|fates| - 1] == Undone(past);
    }
  }

  /** The recipients of one department, in one transaction. */
  method QueueRecipients(tables: Tables, cx: Context, t: Target, desk: Desk) returns (queued: nat, blocked: nat)
    modifies tables`rows, tables`nextRow
    ensures var p := RemindDesk(cx, t, desk, |t.recipients|, old(tables.Contents()));
            && tables.Contents() == p.db && |p.fates| == |t.recipients|
            && queued == CountOf(p.fates, WasQueued) && blocked == CountOf(p.fates, WasBlocked)
  {
    ghost var fates: seq<Fate> := [];
    queued, blocked := 0, 0;
    var j := 0;
    while j < |t.recipients|
      invariant j <= |t.recipients| && |fates| == j
      invariant Progress(tables.Contents(), fates) == RemindDesk(cx, t, desk, j, old(tables.Contents()))
      invariant queued == CountOf(fates, WasQueued) && blocked == CountOf(fates, WasBlocked)
    {
      var r := desk.replies(j);
      ghost var next := RemindOne(cx, t, t.recipients[j], r, tables.Contents());
      if !r.fault {
        var outcome := tables.EnqueueEmail(RequestFor(cx, t, t.recipients[j], r.calendar), r.catalog, r.now);
        if outcome in {Created, Deferred} {
          queued := queued + 1;
        } else if outcome in {BlockedWindow, BlockedInactive} {
          blocked := blocked + 1;
        }
      }
      assert (fates + [next.1])[..j] == fates;
      NextOne(cx, t, desk, j, old(tables.Contents()));
      fates := fates + [next.1];
      j := j + 1;
    }
  }

  // --------------------------------------------------------------------- accounting

  /** The rows of `db` are still there, and n rows are new. */
  ghost predicate Gained(db: Db, db': Db, n: nat) {
    && (forall id | id in db.rows :: id in db'.rows && db'.rows[id] == db.rows[id])
    && |db'.rows| == |db.rows| + n
    && (forall id | id in db'.rows :: id < db'.nextRow)
  }

  /** The rows added since the table was `db` are those queued. */
  ghost predicate GainedSoFar(db: Db, p: Progress) { Gained(db, p.db, CountOf(p.fates, WasQueued)) }

  lemma EnqueueGains(db: Db, q: Request, c: Catalog, now: Time)
    requires forall id | id in db.rows :: id < db.nextRow
    ensures Gained(db, Enqueue(db, q, c, now), if EnqueueVerdict(db.rows, q, c, now).Queues() then 1 else 0)
  {
    var db' := Enqueue(db, q, c, now);
    if db' != db { assert db'.rows.Keys == db.rows.Keys + {db.nextRow}; }
  }

  lemma GainedTrans(a: Db, b: Db, c: Db, n: nat, m: nat)
    requires Gained(a, b, n) && Gained(b, c, m)
    ensures Gained(a, c, n + m)
  {
  }

  lemma OneGains(cx: Context, t: Target, email: string, r: Reply, db: Db)
    requires forall id | id in db.rows :: id < db.nextRow
    ensures var (db', fate) := RemindOne(cx, t, email, r, db); Gained(db, db', if fate == WasQueued then 1 else 0)
  {
    EnqueueGains(db, RequestFor(cx, t, email, r.calendar), r.catalog, r.now);
  }

  lemma DeskGains(cx: Context, t: Target, desk: Desk, n: nat, db: Db)
    requires n <= |t.recipients| && forall id | id in db.rows :: id < db.nextRow
    ensures GainedSoFar(db, RemindDesk(cx, t, desk, n, db))
  {
    var inv := (j: nat, q: Progress) => GainedSoFar(db, q);
    forall j: nat, q | j < n && inv(j, q)
      ensures inv(j + 1, OneStep(cx, t, desk)(j, q))
    {
      var (db', fate) := RemindOne(cx, t, t.recipients[j], desk.replies(j), q.db);
      OneGains(cx, t, t.recipients[j], desk.replies(j), q.db);
      GainedOneMore(db, q.db, db', q.fates, fate);
    }
    IterateKeeps(OneStep(cx, t, desk), n, Progress(db, []), inv);
  }

  lemma GainedOneMore(a: Db, b: Db, c: Db, fates: seq<Fate>, fate: Fate)
    requires Gained(a, b, CountOf(fates, WasQueued)) && Gained(b, c, if fate == WasQueued then 1 else 0)
    ensures Gained(a, c, CountOf(fates + [fate], WasQueued))
  {
    assert (fates + [fate])[..|fates|] == fates;
    GainedTrans(a, b, c, CountOf(fates, WasQueued), if fate == WasQueued then 1 else 0);
  }

  /** Recipients of the departments a run reaches. */
  function Considered(cx: Context, n: nat): nat
    requires n <= |cx.targets|
  {
    if n == 0 then 0
    else Considered(cx, n - 1) + if cx.desk(n - 1).present then |cx.targets[n - 1].recipients| else 0
  }

  lemma {:induction false} FatesPartition(fates: seq<Fate>)
    ensures |fates| == CountOf(fates, WasQueued) + CountOf(fates, WasBlocked) + CountOf(fates, WasDuplicate)
                       + CountOf(fates, HadError) + CountOf(fates, RolledBack)
  {
    if fates != [] {
      FatesPartition(fates[..|fates| - 1]);
      match fates[|fates| - 1] {
        case WasQueued =>
        case WasBlocked =>
        case WasDuplicate =>
        case HadError =>
        case RolledBack =>
      }
    }
  }

  lemma RunGains(cx: Context, n: nat, db: Db)
    requires n <= |cx.targets| && forall id | id in db.rows :: id < db.nextRow
    ensures GainedSoFar(db, AfterDesks(cx, n, db))
  {
    var inv := (i: nat, q: Progress) => GainedSoFar(db, q);
    forall i: nat, q | i < n && inv(i, q)
      ensures inv(i + 1, DeskStep(cx)(i, q))
    {
      StepGains(cx, i, db, q);
    }
    IterateKeeps(DeskStep(cx), n, Progress(db, []), inv);
  }

  lemma StepGains(cx: Context, i: nat, db: Db, p: Progress)
    requires i < |cx.targets| && GainedSoFar(db, p)
    ensures GainedSoFar(db, AfterDesk(cx, i, p))
  {
    var t, desk := cx.targets[i], cx.desk(i);
    var q := RemindDesk(cx, t, desk, |t.recipients|, p.db);
    DeskGains(cx, t, desk, |t.recipients|, p.db);
    DeskCounts(db, p, q.db, q.fates);
  }

  /** A department's transaction, committed or undone, after the others. */
  lemma DeskCounts(db: Db, p: Progress, db': Db, fates: seq<Fate>)
    requires GainedSoFar(db, p) && Gained(p.db, db', CountOf(fates, WasQueued))
    ensures GainedSoFar(db, Progress(db', p.fates + fates))
    ensures GainedSoFar(db, Progress(p.db, p.fates + Undone(fates)))
  {
    CountsAfter(p.fates, fates);
    GainedTrans(db, p.db, db', CountOf(p.fates, WasQueued), CountOf(fates, WasQueued));
  }

  lemma {:induction false} RunConsiders(cx: Context, n: nat, db: Db)
    requires n <= |cx.targets|
    ensures |AfterDesks(cx, n, db).fates| == Considered(cx, n)
  {
    if n > 0 {
      RunConsiders(cx, n - 1, db);
      NextDesk(cx, n - 1, db);
      StepConsiders(cx, n - 1, AfterDesks(cx, n - 1, db));
    }
  }

  lemma StepConsiders(cx: Context, i: nat, p: Progress)
    requires i < |cx.targets|
    ensures |AfterDesk(cx, i, p).fates| == |p.fates| + if cx.desk(i).present then |cx.targets[i].recipients| else 0
  {
    DeskConsiders(cx, cx.targets[i], cx.desk(i), |cx.targets[i].recipients|, p.db);
  }

  lemma {:induction false} DeskConsiders(cx: Context, t: Target, desk: Desk, n: nat, db: Db)
    requires n <= |t.recipients|
    ensures |RemindDesk(cx, t, desk, n, db).fates| == n
  {
    if n > 0 {
      DeskConsiders(cx, t, desk, n - 1, db);
      NextOne(cx, t, desk, n - 1, db);
    }
  }

  /** The rows a run reports queued are exactly the new rows that survive it, and each recipient
      it considered was queued, blocked, a duplicate, lost to an error, or rolled back. */
  lemma ReminderAccounting(cx: Context, db: Db)
    requires forall id | id in db.rows :: id < db.nextRow
    ensures var p := AfterDesks(cx, |cx.targets|, db);
            var m := Report(cx, p.fates, false);
            && Gained(db, p.db, m.rowsQueued)
            && m.recipientsTotal == Considered(cx, |cx.targets|)
            && m.recipientsTotal == m.rowsQueued + m.rowsBlocked + CountOf(p.fates, WasDuplicate)
                                    + CountOf(p.fates, HadError) + CountOf(p.fates, RolledBack)
  {
    RunGains(cx, |cx.targets|, db);
    RunConsiders(cx, |cx.targets|, db);
    FatesPartition(AfterDesks(cx, |cx.targets|, db).fates);
  }

  // ----------------------------------------------------------------------- second run

  /** The second run meets what the first met, later the same UTC day. */
  predicate SameReply(a: Reply, b: Reply) {
    a.catalog == b.catalog && a.now <= b.now && SameDay(a.calendar, b.calendar)
  }

  ghost predicate Reruns(a: Context, b: Context) {
    && a.event == b.event && a.targets == b.targets
    && forall i: nat ::
         && a.desk(i).present == b.desk(i).present
         && forall j: nat :: SameReply(a.desk(i).replies(j), b.desk(i).replies(j))
  }

  /** The first run commits everything it inserts. */
  ghost predicate Clean(cx: Context) {
    forall i: nat :: cx.desk(i).commits && forall j: nat :: !cx.desk(i).replies(j).fault
  }

  /** This recipient will not be queued again: blocked at the time, or the key is taken. */
  predicate Settled(cx: Context, i: nat, j: nat, rows: map<RowId, Row>)
    requires i < |cx.targets| && j < |cx.targets[i].recipients|
  {
    var t, r := cx.targets[i], cx.desk(i).replies(j);
    var q := RequestFor(cx, t, t.recipients[j], r.calendar);
    BlockedBy(q, r.catalog, r.now).Some? || HoldsKey(rows, q.dedupKey.value)
  }

  predicate KeysSurvive(rows: map<RowId, Row>, rows': map<RowId, Row>) {
    forall id | id in rows && rows[id].dedupKey.Some? :: HoldsKey(rows', rows[id].dedupKey.value)
  }

  lemma EnqueueSettles(db: Db, q: Request, c: Catalog, now: Time)
    requires q.dedupKey.Some? && forall id | id in db.rows :: id < db.nextRow
    ensures var rows' := Enqueue(db, q, c, now).rows;
            && (BlockedBy(q, c, now).Some? || HoldsKey(rows', q.dedupKey.value))
            && KeysSurvive(db.rows, rows')
  {
    var db' := Enqueue(db, q, c, now);
    if db' != db { assert db'.rows[db.nextRow].dedupKey == q.dedupKey; }
    forall id | id in db.rows
      ensures id in db'.rows && db'.rows[id] == db.rows[id]
    {
    }
  }

  lemma SurviveTrans(a: map<RowId, Row>, b: map<RowId, Row>, c: map<RowId, Row>)
    requires KeysSurvive(a, b) && KeysSurvive(b, c)
    ensures KeysSurvive(a, c)
  {
    forall id | id in a && a[id].dedupKey.Some?
      ensures HoldsKey(c, a[id].dedupKey.value)
    {
      var other :| other in b && b[other].dedupKey == a[id].dedupKey;
    }
  }

  lemma SettledSurvives(cx: Context, i: nat, j: nat, rows: map<RowId, Row>, rows': map<RowId, Row>)
    requires i < |cx.targets| && j < |cx.targets[i].recipients|
    requires Settled(cx, i, j, rows) && KeysSurvive(rows, rows')
    ensures Settled(cx, i, j, rows')
  {
  }

  predicate FirstSettled(cx: Context, i: nat, n: nat, rows: map<RowId, Row>)
    requires i < |cx.targets| && n <= |cx.targets[i].recipients|
  {
    forall j | 0 <= j < n :: Settled(cx, i, j, rows)
  }

  /** The first n recipients of a department are settled, and no key has been freed. */
  ghost predicate DeskSettledSoFar(cx: Context, i: nat, n: nat, db: Db, p: Progress)
    requires i < |cx.targets|
  {
    n <= |cx.targets[i].recipients| && GainedSoFar(db, p) && KeysSurvive(db.rows, p.db.rows)
    && FirstSettled(cx, i, n, p.db.rows)
  }

  lemma DeskSettles(cx: Context, i: nat, n: nat, db: Db)
    requires Clean(cx) && i < |cx.targets| && n <= |cx.targets[i].recipients|
    requires forall id | id in db.rows :: id < db.nextRow
    ensures DeskSettledSoFar(cx, i, n, db, RemindDesk(cx, cx.targets[i], cx.desk(i), n, db))
  {
    var t, desk := cx.targets[i], cx.desk(i);
    KeysSurviveSelf(db.rows);
    var inv := (j: nat, q: Progress) => DeskSettledSoFar(cx, i, j, db, q);
    forall j: nat, q | j < n && inv(j, q)
      ensures inv(j + 1, OneStep(cx, t, desk)(j, q))
    {
      OneSettles(cx, i, j, db, q);
    }
    IterateKeeps(OneStep(cx, t, desk), n, Progress(db, []), inv);
  }

  /** One more recipient is settled, and those before stay so. */
  lemma OneSettles(cx: Context, i: nat, j: nat, db: Db, p: Progress)
    requires Clean(cx) && i < |cx.targets| && j < |cx.targets[i].recipients| && DeskSettledSoFar(cx, i, j, db, p)
    ensures DeskSettledSoFar(cx, i, j + 1, db, AfterOne(cx, cx.targets[i], cx.desk(i), j, p))
  {
    var t, r := cx.targets[i], cx.desk(i).replies(j);
    var q := RequestFor(cx, t, t.recipients[j], r.calendar);
    var (db', fate) := RemindOne(cx, t, t.recipients[j], r, p.db);
    OneGains(cx, t, t.recipients[j], r, p.db);
    GainedOneMore(db, p.db, db', p.fates, fate);
    EnqueueSettles(p.db, q, r.catalog, r.now);
    SurviveTrans(db.rows, p.db.rows, db'.rows);
    forall k | 0 <= k < j
      ensures Settled(cx, i, k, db'.rows)
    {
      SettledSurvives(cx, i, k, p.db.rows, db'.rows);
    }
  }

  lemma KeysSurviveSelf(rows: map<RowId, Row>)
    ensures KeysSurvive(rows, rows)
  {
  }

  ghost predicate AllSettled(cx: Context, n: nat, rows: map<RowId, Row>)
    requires n <= |cx.targets|
  {
    forall i, j | 0 <= i < n && cx.desk(i).present && 0 <= j < |cx.targets[i].recipients| :: Settled(cx, i, j, rows)
  }

  lemma AllSettledSurvives(cx: Context, n: nat, rows: map<RowId, Row>, rows': map<RowId, Row>)
    requires n <= |cx.targets| && AllSettled(cx, n, rows) && KeysSurvive(rows, rows')
    ensures AllSettled(cx, n, rows')
  {
    forall i, j | 0 <= i < n && cx.desk(i).present && 0 <= j < |cx.targets[i].recipients|
      ensures Settled(cx, i, j, rows')
    {
      SettledSurvives(cx, i, j, rows, rows');
    }
  }

  /** The first n departments are settled, and no key has been freed since the table was `db`. */
  ghost predicate SettledSoFar(cx: Context, n: nat, db: Db, p: Progress) {
    n <= |cx.targets| && GainedSoFar(db, p) && KeysSurvive(db.rows, p.db.rows) && AllSettled(cx, n, p.db.rows)
  }

  lemma RunSettles(cx: Context, n: nat, db: Db)
    requires Clean(cx) && n <= |cx.targets| && forall id | id in db.rows :: id < db.nextRow
    ensures SettledSoFar(cx, n, db, AfterDesks(cx, n, db))
  {
    KeysSurviveSelf(db.rows);
    var inv := (i: nat, q: Progress) => SettledSoFar(cx, i, db, q);
    forall i: nat, q | i < n && inv(i, q)
      ensures inv(i + 1, DeskStep(cx)(i, q))
    {
      StepSettles(cx, i, db, q);
    }
    IterateKeeps(DeskStep(cx), n, Progress(db, []), inv);
  }

  lemma StepSettles(cx: Context, i: nat, db: Db, p: Progress)
    requires Clean(cx) && i < |cx.targets| && SettledSoFar(cx, i, db, p)
    ensures SettledSoFar(cx, i + 1, db, AfterDesk(cx, i, p))
  {
    var rows, rows' := p.db.rows, AfterDesk(cx, i, p).db.rows;
    StepGains(cx, i, db, p);
    TargetSettles(cx, i, p);
    SurviveTrans(db.rows, rows, rows');
    AllSettledSurvives(cx, i, rows, rows');
    AllSettledNext(cx, i, rows');
  }

  predicate TargetSettled(cx: Context, i: nat, rows: map<RowId, Row>)
    requires i < |cx.targets|
  {
    cx.desk(i).present ==> forall j | 0 <= j < |cx.targets[i].recipients| :: Settled(cx, i, j, rows)
  }

  lemma TargetSettles(cx: Context, i: nat, p: Progress)
    requires Clean(cx) && i < |cx.targets| && forall id | id in p.db.rows :: id < p.db.nextRow
    ensures KeysSurvive(p.db.rows, AfterDesk(cx, i, p).db.rows) && TargetSettled(cx, i, AfterDesk(cx, i, p).db.rows)
  {
    var t, desk := cx.targets[i], cx.desk(i);
    if desk.present && t.recipients != [] {
      DeskSettles(cx, i, |t.recipients|, p.db);
      assert AfterDesk(cx, i, p).db == RemindDesk(cx, t, desk, |t.recipients|, p.db).db;
    } else {
      KeysSurviveSelf(p.db.rows);
    }
  }

  lemma AllSettledNext(cx: Context, i: nat, rows: map<RowId, Row>)
    requires i < |cx.targets| && AllSettled(cx, i, rows) && TargetSettled(cx, i, rows)
    ensures AllSettled(cx, i + 1, rows)
  {
  }

  /** What was settled in the first run does not queue in the second. */
  lemma SettledNotQueued(a: Context, b: Context, i: nat, j: nat, rows: map<RowId, Row>)
    requires Reruns(a, b) && i < |a.targets| && j < |a.targets[i].recipients| && Settled(a, i, j, rows)
    ensures var t, r := b.targets[i], b.desk(i).replies(j);
            !EnqueueVerdict(rows, RequestFor(b, t, t.recipients[j], r.calendar), r.catalog, r.now).Queues()
  {
    assert SameReply(a.desk(i).replies(j), b.desk(i).replies(j));
    var t := a.targets[i];
    SameKey(a, t, t.recipients[j], a.desk(i).replies(j).calendar, b.desk(i).replies(j).calendar);
  }

  lemma SameKey(cx: Context, t: Target, email: string, a: DateTime, b: DateTime)
    requires SameDay(a, b)
    ensures KeyFor(cx, t, email, a) == KeyFor(cx, t, email, b)
  {
  }

  /** Nothing has been queued and the tables are as they were. */
  predicate Idle(db: Db, p: Progress) { p.db == db && WasQueued !in p.fates }

  lemma DeskQueuesNothing(a: Context, b: Context, i: nat, n: nat, db: Db)
    requires Reruns(a, b) && i < |a.targets| && n <= |a.targets[i].recipients|
    requires TargetSettled(a, i, db.rows) && a.desk(i).present
    ensures Idle(db, RemindDesk(b, b.targets[i], b.desk(i), n, db))
  {
    var t, desk := b.targets[i], b.desk(i);
    var inv := (j: nat, q: Progress) => Idle(db, q);
    forall j: nat, q | j < n && inv(j, q)
      ensures inv(j + 1, OneStep(b, t, desk)(j, q))
    {
      SettledNotQueued(a, b, i, j, db.rows);
    }
    IterateKeeps(OneStep(b, t, desk), n, Progress(db, []), inv);
  }

  lemma StepQueuesNothing(a: Context, b: Context, i: nat, db: Db, p: Progress)
    requires Reruns(a, b) && i < |a.targets| && AllSettled(a, |a.targets|, db.rows) && Idle(db, p)
    ensures Idle(db, AfterDesk(b, i, p))
  {
    assert a.desk(i).present == b.desk(i).present;
    if a.desk(i).present {
      var fates := RemindDesk(b, b.targets[i], b.desk(i), |b.targets[i].recipients|, db).fates;
      DeskQueuesNothing(a, b, i, |a.targets[i].recipients|, db);
      assert WasQueued !in Undone(fates);
    }
  }

  /** A second run later the same UTC day, over the same targets and templates, queues nothing
      and leaves the table alone, if the first had no insert or commit failures and no key has
      been freed since. */
  lemma SecondRunQueuesNothing(a: Context, b: Context, db: Db, db2: Db, n: nat)
    requires Clean(a) && Reruns(a, b) && n <= |a.targets|
    requires forall id | id in db.rows :: id < db.nextRow
    requires KeysSurvive(AfterDesks(a, |a.targets|, db).db.rows, db2.rows)
    ensures Idle(db2, AfterDesks(b, n, db2))
  {
    RunSettles(a, |a.targets|, db);
    AllSettledSurvives(a, |a.targets|, AfterDesks(a, |a.targets|, db).db.rows, db2.rows);
    var inv := (i: nat, q: Progress) => Idle(db2, q);
    forall i: nat, q | i < n && inv(i, q)
      ensures inv(i + 1, DeskStep(b)(i, q))
    {
      StepQueuesNothing(a, b, i, db2, q);
    }
    IterateKeeps(DeskStep(b), n, Progress(db2, []), inv);
  }
}
