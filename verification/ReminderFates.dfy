/** What one run of send_submission_reminders does for each recipient it considers, and the rows it
    adds, in terms of what the run meets and the keys the table already held. */
module ReminderFates {
  import opened Basics
  import opened Outbox
  import opened DedupKey
  import opened Outcomes
  import opened Reminders

  // --------------------------------------------------------------------- visits

  /** One recipient considered: the department's place in the run, what the insert meets, and
      whether the department's transaction commits. */
  datatype Visit = Visit(desk: nat, target: Target, email: string, reply: Reply, kept: bool)

  function DeskVisits(cx: Context, i: nat, n: nat): (vs: seq<Visit>)
    requires i < |cx.targets| && n <= |cx.targets[i].recipients|
    ensures |vs| == n
  {
    var t, desk := cx.targets[i], cx.desk(i);
    seq(n, j requires 0 <= j < n => Visit(i, t, t.recipients[j], desk.replies(j), desk.commits))
  }

  /** The recipients a run considers, in order: those of the departments that still exist. */
  function Visits(cx: Context, n: nat): (vs: seq<Visit>)
    requires n <= |cx.targets|
  {
    if n == 0 then []
    else
      Visits(cx, n - 1) + if cx.desk(n - 1).present then DeskVisits(cx, n - 1, |cx.targets[n - 1].recipients|) else []
  }

  /** The insert does not fail, the template is active and the window has not closed. */
  predicate Open(cx: Context, v: Visit) {
    && !v.reply.fault && Active(v.reply.catalog, Some(cx.event))
    && !ClosedBy(v.reply.catalog, Some(cx.event), v.reply.now)
  }

  function KeyOf(cx: Context, v: Visit): string { KeyFor(cx, v.target, v.email, v.reply.calendar) }

  /** The same department, recipient and UTC day. */
  predicate SameAim(v: Visit, w: Visit) {
    && v.target.department == w.target.department && v.email == w.email
    && v.reply.calendar.year == w.reply.calendar.year && v.reply.calendar.month == w.reply.calendar.month
    && v.reply.calendar.day == w.reply.calendar.day
  }

  /** The keys of two reminders are equal exactly when event, department, recipient and UTC day are. */
  lemma KeysForRecipients(a: Context, v: Visit, b: Context, w: Visit)
    requires v.reply.calendar.Proper() && w.reply.calendar.Proper()
    ensures KeyOf(a, v) == KeyOf(b, w) <==> a.event == b.event && SameAim(v, w)
  {
    KeysByKind(
      Args("submission_reminder", None, Some(a.event), Some(v.target.department), v.email, v.reply.calendar, None),
      Args("submission_reminder", None, Some(b.event), Some(w.target.department), w.email, w.reply.calendar, None));
  }

  // ------------------------------------------------------------------ one recipient

  /** The row a recipient gets. */
  predicate AddressedTo(cx: Context, v: Visit, row: Row) {
    && row.templateKey == cx.templateKey && row.recipient == v.email && row.workItem.None?
    && row.event == Some(cx.event) && row.department == Some(v.target.department)
    && row.dedupKey == Some(KeyOf(cx, v)) && row.status == Queued && row.attempts == 0
    && row.createdAt == v.reply.now
    && row.dispatchAt ==
       (if v.reply.catalog.override.Some? && v.reply.catalog.override.value.windowStart.Some?
           && v.reply.now < v.reply.catalog.override.value.windowStart.value
        then v.reply.catalog.override.value.windowStart.value else v.reply.now)
  }

  predicate MailedTo(cx: Context, v: Visit, db: Db, id: RowId) { id in db.rows && AddressedTo(cx, v, db.rows[id]) }

  /** The table gains one row for each of these visits, in order, and changes in nothing else. */
  ghost predicate Mailed(cx: Context, db: Db, db': Db, vs: seq<Visit>) {
    && db'.nextRow == db.nextRow + |vs|
    && db'.logs == db.logs && db'.nextLog == db.nextLog && db'.bodies == db.bodies
    && (forall id | id in db.rows && id < db.nextRow :: id in db'.rows && db'.rows[id] == db.rows[id])
    && (forall id | id in db'.rows :: id in db.rows || db.nextRow <= id < db.nextRow + |vs|)
    && (forall k | 0 <= k < |vs| :: MailedTo(cx, vs[k], db', db.nextRow + k))
  }

  lemma MailedTrans(cx: Context, a: Db, b: Db, c: Db, vs: seq<Visit>, ws: seq<Visit>)
    requires (forall id | id in a.rows :: id < a.nextRow) && Mailed(cx, a, b, vs) && Mailed(cx, b, c, ws)
    ensures Mailed(cx, a, c, vs + ws)
  {
    forall id | id in a.rows
      ensures id in c.rows && c.rows[id] == a.rows[id]
    {
      assert id in b.rows && id < b.nextRow;
    }
    var all := vs + ws;
    forall k | 0 <= k < |all|
      ensures MailedTo(cx, all[k], c, a.nextRow + k)
    {
      if k < |vs| {
        assert MailedTo(cx, vs[k], b, a.nextRow + k);
      } else {
        assert MailedTo(cx, ws[k - |vs|], c, b.nextRow + (k - |vs|));
      }
    }
  }

  lemma MailedHolds(cx: Context, db: Db, db': Db, vs: seq<Visit>, key: string)
    requires (forall id | id in db.rows :: id < db.nextRow) && Mailed(cx, db, db', vs)
    ensures HoldsKey(db'.rows, key) <==> HoldsKey(db.rows, key) || exists v | v in vs :: KeyOf(cx, v) == key
  {
    if HoldsKey(db.rows, key) {
      var id :| id in db.rows && db.rows[id].dedupKey == Some(key);
      assert db'.rows[id].dedupKey == Some(key);
    }
    if HoldsKey(db'.rows, key) && !HoldsKey(db.rows, key) {
      var id :| id in db'.rows && db'.rows[id].dedupKey == Some(key);
      assert MailedTo(cx, vs[id - db.nextRow], db', db.nextRow + (id - db.nextRow));
    }
    if v :| v in vs && KeyOf(cx, v) == key {
      var k :| 0 <= k < |vs| && vs[k] == v;
      assert MailedTo(cx, vs[k], db', db.nextRow + k);
    }
  }

  /** How a visit fares whose key is held or not, before its transaction is committed or undone. */
  function OpenFate(cx: Context, held: bool, v: Visit): Fate {
    if v.reply.fault then HadError else if !Open(cx, v) then WasBlocked else if held then WasDuplicate else WasQueued
  }

  /** How one recipient fares against the table as it stands, and what the table becomes: its key
      is there afterwards if it came to an open door, and no other key is new. */
  ghost predicate Fares(cx: Context, v: Visit, db: Db, db': Db, fate: Fate) {
    && fate == OpenFate(cx, HoldsKey(db.rows, KeyOf(cx, v)), v)
    && Mailed(cx, db, db', if fate == WasQueued then [v] else [])
    && (forall key :: HoldsKey(db'.rows, key) <==> HoldsKey(db.rows, key) || Claims(cx, v, key))
  }

  predicate Claims(cx: Context, v: Visit, key: string) { Open(cx, v) && KeyOf(cx, v) == key }

  lemma OneFares(cx: Context, v: Visit, db: Db)
    requires forall id | id in db.rows :: id < db.nextRow
    ensures var (db', fate) := RemindOne(cx, v.target, v.email, v.reply, db); Fares(cx, v, db, db', fate)
  {
    var (db', fate) := RemindOne(cx, v.target, v.email, v.reply, db);
    if !v.reply.fault { OpenFares(cx, v, db); }
    forall key
      ensures HoldsKey(db'.rows, key) <==> HoldsKey(db.rows, key) || Claims(cx, v, key)
    {
      MailedHolds(cx, db, db', if fate == WasQueued then [v] else [], key);
    }
  }

  lemma OpenFares(cx: Context, v: Visit, db: Db)
    requires !v.reply.fault && forall id | id in db.rows :: id < db.nextRow
    ensures var q := RequestFor(cx, v.target, v.email, v.reply.calendar);
            var outcome := EnqueueVerdict(db.rows, q, v.reply.catalog, v.reply.now);
            var fate := FateOf(outcome);
            && fate == OpenFate(cx, HoldsKey(db.rows, KeyOf(cx, v)), v)
            && Mailed(cx, db, Enqueue(db, q, v.reply.catalog, v.reply.now), if fate == WasQueued then [v] else [])
  {
    var q := RequestFor(cx, v.target, v.email, v.reply.calendar);
    assert KeyTaken(db.rows, q) <==> HoldsKey(db.rows, KeyOf(cx, v));
    EnqueueExactly(db.rows, q, v.reply.catalog, v.reply.now);
    QueuedExactly(db, q, v.reply.catalog, v.reply.now);
  }

  // ------------------------------------------------------------------ one department

  /** An earlier visit's row is in the table when the k-th comes: its transaction is the same, or
      has committed. */
  predicate Precedes(w: Visit, v: Visit) { w.kept || w.desk == v.desk }

  /** The k-th visit finds its key taken. */
  predicate Taken(cx: Context, rows: map<RowId, Row>, vs: seq<Visit>, k: nat)
    requires k < |vs|
  {
    || HoldsKey(rows, KeyOf(cx, vs[k]))
    || exists m | 0 <= m < k :: Open(cx, vs[m]) && Precedes(vs[m], vs[k]) && SameAim(vs[m], vs[k])
  }

  /** How it should fare. */
  function FateDue(cx: Context, rows: map<RowId, Row>, vs: seq<Visit>, k: nat): Fate
    requires k < |vs|
  {
    if vs[k].reply.fault then HadError
    else if !Open(cx, vs[k]) then WasBlocked
    else if Taken(cx, rows, vs, k) then WasDuplicate
    else if vs[k].kept then WasQueued
    else RolledBack
  }

  /** The visits that were queued. */
  function Chosen(vs: seq<Visit>, fates: seq<Fate>): seq<Visit>
    requires |vs| == |fates|
  {
    if vs == [] then []
    else
      Chosen(vs[..|vs| - 1], fates[..|fates| - 1]) +
      if fates[|fates| - 1] == WasQueued then [vs[|vs| - 1]] else []
  }

  lemma {:induction false} ChosenConcat(vs: seq<Visit>, fates: seq<Fate>, ws: seq<Visit>, more: seq<Fate>)
    requires |vs| == |fates| && |ws| == |more|
    ensures Chosen(vs + ws, fates + more) == Chosen(vs, fates) + Chosen(ws, more)
  {
    if ws == [] {
      assert vs + ws == vs && fates + more == fates;
    } else {
      ChosenConcat(vs, fates, ws[..|ws| - 1], more[..|ws| - 1]);
      assert (vs + ws)[..|vs + ws| - 1] == vs + ws[..|ws| - 1];
      assert (fates + more)[..|fates + more| - 1] == fates + more[..|ws| - 1];
    }
  }

  lemma {:induction false} NoneChosen(vs: seq<Visit>, fates: seq<Fate>)
    requires |vs| == |fates| && WasQueued !in fates
    ensures Chosen(vs, fates) == []
  {
    if vs != [] { NoneChosen(vs[..|vs| - 1], fates[..|fates| - 1]); }
  }

  lemma {:induction false} AllChosen(vs: seq<Visit>, fates: seq<Fate>)
    requires |vs| == |fates| && forall k | 0 <= k < |fates| :: fates[k] == WasQueued
    ensures Chosen(vs, fates) == vs && CountOf(fates, WasQueued) == |fates|
  {
    if vs != [] { AllChosen(vs[..|vs| - 1], fates[..|fates| - 1]); }
  }

  predicate HeldAfter(cx: Context, rows: map<RowId, Row>, vs: seq<Visit>, n: nat, key: string)
    requires n <= |vs|
  {
    HoldsKey(rows, key) || exists m | 0 <= m < n :: Claims(cx, vs[m], key)
  }

  ghost predicate DeskKeys(cx: Context, rows: map<RowId, Row>, vs: seq<Visit>, n: nat, now: map<RowId, Row>)
    requires n <= |vs|
  {
    forall key :: HoldsKey(now, key) <==> HeldAfter(cx, rows, vs, n, key)
  }

  predicate DeskFates(cx: Context, rows: map<RowId, Row>, vs: seq<Visit>, n: nat, fates: seq<Fate>)
    requires n <= |vs|
  {
    && |fates| == n
    && forall k | 0 <= k < n :: fates[k] == OpenFate(cx, HeldAfter(cx, rows, vs, k, KeyOf(cx, vs[k])), vs[k])
  }

  ghost predicate DeskRight(cx: Context, vs: seq<Visit>, db: Db, n: nat, p: Progress) {
    && n <= |vs| && DeskFates(cx, db.rows, vs, n, p.fates) && DeskKeys(cx, db.rows, vs, n, p.db.rows)
    && Mailed(cx, db, p.db, Chosen(vs[..n], p.fates))
  }

  lemma DeskRightNext(cx: Context, vs: seq<Visit>, db: Db, n: nat, p: Progress, db': Db, fate: Fate)
    requires n < |vs| && (forall id | id in db.rows :: id < db.nextRow) && DeskRight(cx, vs, db, n, p)
    requires Fares(cx, vs[n], p.db, db', fate)
    ensures DeskRight(cx, vs, db, n + 1, Progress(db', p.fates + [fate]))
  {
    DeskMailedNext(cx, vs, db, n, p, db', fate);
    DeskKeysNext(cx, vs, db.rows, n, p.db.rows, db'.rows);
    DeskFateNext(cx, db.rows, vs, n, p.fates, fate);
  }

  lemma DeskKeysNext(cx: Context, vs: seq<Visit>, rows: map<RowId, Row>, n: nat, mid: map<RowId, Row>,
          now: map<RowId, Row>)
    requires n < |vs| && DeskKeys(cx, rows, vs, n, mid)
    requires forall key :: HoldsKey(now, key) <==> HoldsKey(mid, key) || Claims(cx, vs[n], key)
    ensures DeskKeys(cx, rows, vs, n + 1, now)
  {
    forall key
      ensures HoldsKey(now, key) <==> HeldAfter(cx, rows, vs, n + 1, key)
    {
      HeldAfterMore(cx, rows, vs, n, key);
    }
  }

  lemma DeskFateNext(cx: Context, rows: map<RowId, Row>, vs: seq<Visit>, n: nat, fates: seq<Fate>, fate: Fate)
    requires n < |vs| && DeskFates(cx, rows, vs, n, fates)
    requires fate == OpenFate(cx, HeldAfter(cx, rows, vs, n, KeyOf(cx, vs[n])), vs[n])
    ensures DeskFates(cx, rows, vs, n + 1, fates + [fate])
  {
  }

  lemma DeskMailedNext(cx: Context, vs: seq<Visit>, db: Db, n: nat, p: Progress, db': Db, fate: Fate)
    requires n < |vs| && n == |p.fates| && (forall id | id in db.rows :: id < db.nextRow)
    requires Mailed(cx, db, p.db, Chosen(vs[..n], p.fates))
    requires Mailed(cx, p.db, db', if fate == WasQueued then [vs[n]] else [])
    ensures Mailed(cx, db, db', Chosen(vs[..n + 1], p.fates + [fate]))
  {
    var more := if fate == WasQueued then [vs[n]] else [];
    MailedTrans(cx, db, p.db, db', Chosen(vs[..n], p.fates), more);
    assert vs[..n + 1][..n] == vs[..n] && (p.fates + [fate])[..n] == p.fates;
    assert Chosen(vs[..n + 1], p.fates + [fate]) == Chosen(vs[..n], p.fates) + more;
  }

  lemma HeldAfterMore(cx: Context, rows: map<RowId, Row>, vs: seq<Visit>, n: nat, key: string)
    requires n < |vs|
    ensures HeldAfter(cx, rows, vs, n + 1, key) <==> HeldAfter(cx, rows, vs, n, key) || Claims(cx, vs[n], key)
  {
  }

  lemma DeskExactly(cx: Context, i: nat, db: Db)
    requires i < |cx.targets| && forall id | id in db.rows :: id < db.nextRow
    ensures var t := cx.targets[i];
            var vs := DeskVisits(cx, i, |t.recipients|);
            DeskRight(cx, vs, db, |vs|, RemindDesk(cx, t, cx.desk(i), |t.recipients|, db))
  {
    var t, desk := cx.targets[i], cx.desk(i);
    var n, vs := |t.recipients|, DeskVisits(cx, i, |t.recipients|);
    var inv := (j: nat, p: Progress) => DeskRight(cx, vs, db, j, p);
    forall j: nat, p | j < n && inv(j, p)
      ensures inv(j + 1, OneStep(cx, t, desk)(j, p))
    {
      var (db', fate) := RemindOne(cx, t, t.recipients[j], desk.replies(j), p.db);
      OneFares(cx, vs[j], p.db);
      DeskRightNext(cx, vs, db, j, p, db', fate);
    }
    assert vs[..0] == [];
    IterateKeeps(OneStep(cx, t, desk), n, Progress(db, []), inv);
  }

  // -------------------------------------------------------------------- a whole run

  ghost predicate ProperCalendars(cx: Context) {
    forall i: nat, j: nat :: cx.desk(i).replies(j).calendar.Proper()
  }

  predicate KeptClaims(cx: Context, v: Visit, key: string) { v.kept && Claims(cx, v, key) }

  /** Which keys the table holds once a run's visits so far are vs. */
  ghost predicate KeysRight(cx: Context, rows: map<RowId, Row>, vs: seq<Visit>, now: map<RowId, Row>) {
    forall key ::
      HoldsKey(now, key) <==> HoldsKey(rows, key) || exists m | 0 <= m < |vs| :: KeptClaims(cx, vs[m], key)
  }

  predicate FatesRight(cx: Context, rows: map<RowId, Row>, vs: seq<Visit>, fates: seq<Fate>) {
    |fates| == |vs| && forall k | 0 <= k < |vs| :: fates[k] == FateDue(cx, rows, vs, k)
  }

  /** The run's progress. */
  ghost predicate RunRight(cx: Context, vs: seq<Visit>, db: Db, p: Progress) {
    && FatesRight(cx, db.rows, vs, p.fates) && KeysRight(cx, db.rows, vs, p.db.rows)
    && Mailed(cx, db, p.db, Chosen(vs, p.fates))
  }

  ghost predicate Calendared(vs: seq<Visit>) { forall v | v in vs :: v.reply.calendar.Proper() }

  /** The visits ws are one department's, and vs those of others. */
  ghost predicate OneDesk(vs: seq<Visit>, ws: seq<Visit>, kept: bool) {
    && Calendared(vs) && Calendared(ws) && (forall w | w in ws :: w.kept == kept)
    && (forall v, w | v in vs && w in ws :: v.desk != w.desk)
    && (forall v, w | v in ws && w in ws :: v.desk == w.desk)
  }

  /** What a department's visits find taken is what the whole run's do. */
  lemma TakenInRun(cx: Context, rows: map<RowId, Row>, vs: seq<Visit>, mid: map<RowId, Row>, ws: seq<Visit>, k: nat,
          kept: bool)
    requires k < |ws| && OneDesk(vs, ws, kept)
    requires KeysRight(cx, rows, vs, mid)
    ensures Taken(cx, rows, vs + ws, |vs| + k) <==> HeldAfter(cx, mid, ws, k, KeyOf(cx, ws[k]))
  {
    var all, key := vs + ws, KeyOf(cx, ws[k]);
    assert all[|vs| + k] == ws[k];
    forall m | 0 <= m < |vs|
      ensures KeptClaims(cx, vs[m], key) <==>
              Open(cx, all[m]) && Precedes(all[m], all[|vs| + k]) && SameAim(all[m], all[|vs| + k])
    {
      assert vs[m] in vs && ws[k] in ws;
      KeysForRecipients(cx, vs[m], cx, ws[k]);
    }
    forall m | 0 <= m < k
      ensures Claims(cx, ws[m], key) <==>
              && Open(cx, all[|vs| + m]) && Precedes(all[|vs| + m], all[|vs| + k])
              && SameAim(all[|vs| + m], all[|vs| + k])
    {
      assert ws[m] in ws && ws[k] in ws;
      KeysForRecipients(cx, ws[m], cx, ws[k]);
    }
  }

  /** The fates a department's transaction ends with. */
  function Settle(fates: seq<Fate>, commits: bool): (settled: seq<Fate>)
    ensures |settled| == |fates|
  {
    if commits then fates else Undone(fates)
  }

  /** One department, committed or undone, after the others. */
  lemma RunRightNext(cx: Context, vs: seq<Visit>, db: Db, p: Progress, ws: seq<Visit>, q: Progress, kept: bool)
    requires (forall id | id in db.rows :: id < db.nextRow) && RunRight(cx, vs, db, p)
    requires DeskRight(cx, ws, p.db, |ws|, q) && OneDesk(vs, ws, kept)
    ensures RunRight(cx, vs + ws, db, Progress(if kept then q.db else p.db, p.fates + Settle(q.fates, kept)))
  {
    RunFatesNext(cx, vs, db, p, ws, q, kept);
    RunKeysNext(cx, vs, db.rows, p.db.rows, ws, q.db.rows, kept);
    RunMailedNext(cx, vs, db, p, ws, q, kept);
  }

  lemma RunFatesNext(cx: Context, vs: seq<Visit>, db: Db, p: Progress, ws: seq<Visit>, q: Progress, kept: bool)
    requires RunRight(cx, vs, db, p) && DeskRight(cx, ws, p.db, |ws|, q) && OneDesk(vs, ws, kept)
    ensures FatesRight(cx, db.rows, vs + ws, p.fates + Settle(q.fates, kept))
  {
    var settled := Settle(q.fates, kept);
    forall k | 0 <= k < |ws|
      ensures settled[k] == FateDue(cx, db.rows, vs + ws, |vs| + k)
    {
      FateNext(cx, vs, db, p, ws, q, kept, k);
    }
    FatesConcat(cx, db.rows, vs, p.fates, ws, settled);
  }

  lemma FatesConcat(cx: Context, rows: map<RowId, Row>, vs: seq<Visit>, fates: seq<Fate>, ws: seq<Visit>,
          more: seq<Fate>)
    requires FatesRight(cx, rows, vs, fates) && |more| == |ws|
    requires forall k | 0 <= k < |ws| :: more[k] == FateDue(cx, rows, vs + ws, |vs| + k)
    ensures FatesRight(cx, rows, vs + ws, fates + more)
  {
    forall k | 0 <= k < |vs + ws|
      ensures (fates + more)[k] == FateDue(cx, rows, vs + ws, k)
    {
      if k < |vs| {
        FateStays(cx, rows, vs, ws, k);
      } else {
        assert more[k - |vs|] == FateDue(cx, rows, vs + ws, |vs| + (k - |vs|));
      }
    }
  }

  lemma RunKeysNext(cx: Context, vs: seq<Visit>, rows: map<RowId, Row>, mid: map<RowId, Row>, ws: seq<Visit>,
          now: map<RowId, Row>, kept: bool)
    requires KeysRight(cx, rows, vs, mid) && OneDesk(vs, ws, kept)
    requires DeskKeys(cx, mid, ws, |ws|, now)
    ensures KeysRight(cx, rows, vs + ws, if kept then now else mid)
  {
    forall key
      ensures HoldsKey(if kept then now else mid, key) <==>
              HoldsKey(rows, key) || exists m | 0 <= m < |vs + ws| :: KeptClaims(cx, (vs + ws)[m], key)
    {
      KeysInRun(cx, vs, ws, key, kept);
      assert HoldsKey(now, key) <==> HeldAfter(cx, mid, ws, |ws|, key);
    }
  }

  /** Where a department's visits are in the run, and one of them. */
  lemma FateNext(cx: Context, vs: seq<Visit>, db: Db, p: Progress, ws: seq<Visit>, q: Progress, kept: bool, k: nat)
    requires RunRight(cx, vs, db, p) && DeskRight(cx, ws, p.db, |ws|, q) && OneDesk(vs, ws, kept)
    requires k < |ws|
    ensures Settle(q.fates, kept)[k] == FateDue(cx, db.rows, vs + ws, |vs| + k)
  {
    TakenInRun(cx, db.rows, vs, p.db.rows, ws, k, kept);
    assert (vs + ws)[|vs| + k] == ws[k] && ws[k] in ws;
    assert q.fates[k] == OpenFate(cx, HeldAfter(cx, p.db.rows, ws, k, KeyOf(cx, ws[k])), ws[k]);
  }

  lemma RunMailedNext(cx: Context, vs: seq<Visit>, db: Db, p: Progress, ws: seq<Visit>, q: Progress, kept: bool)
    requires (forall id | id in db.rows :: id < db.nextRow) && |p.fates| == |vs| && |q.fates| == |ws|
    requires Mailed(cx, db, p.db, Chosen(vs, p.fates)) && Mailed(cx, p.db, q.db, Chosen(ws[..|ws|], q.fates))
    ensures Mailed(cx, db, if kept then q.db else p.db, Chosen(vs + ws, p.fates + Settle(q.fates, kept)))
  {
    assert ws[..|ws|] == ws;
    ChosenConcat(vs, p.fates, ws, Settle(q.fates, kept));
    if kept {
      MailedTrans(cx, db, p.db, q.db, Chosen(vs, p.fates), Chosen(ws, q.fates));
    } else {
      NoneChosen(ws, Undone(q.fates));
      MailedNone(cx, db, p.db, Chosen(vs, p.fates));
    }
  }

  lemma MailedNone(cx: Context, db: Db, db': Db, vs: seq<Visit>)
    requires Mailed(cx, db, db', vs)
    ensures Mailed(cx, db, db', vs + [])
  {
    assert vs + [] == vs;
  }

  lemma FateStays(cx: Context, rows: map<RowId, Row>, vs: seq<Visit>, ws: seq<Visit>, k: nat)
    requires k < |vs|
    ensures FateDue(cx, rows, vs + ws, k) == FateDue(cx, rows, vs, k)
  {
    assert forall m | 0 <= m <= k :: (vs + ws)[m] == vs[m];
  }

  lemma KeysInRun(cx: Context, vs: seq<Visit>, ws: seq<Visit>, key: string, kept: bool)
    requires OneDesk(vs, ws, kept)
    ensures (exists m | 0 <= m < |vs + ws| :: KeptClaims(cx, (vs + ws)[m], key)) <==>
            || (exists m | 0 <= m < |vs| :: KeptClaims(cx, vs[m], key))
            || (kept && exists m | 0 <= m < |ws| :: Claims(cx, ws[m], key))
  {
    var all := vs + ws;
    forall m | 0 <= m < |vs|
      ensures all[m] == vs[m]
    {
    }
    forall m | 0 <= m < |ws|
      ensures all[|vs| + m] == ws[m] && ws[m] in ws
    {
    }
  }

  lemma {:induction false} VisitsOrdered(cx: Context, n: nat)
    requires n <= |cx.targets| && ProperCalendars(cx)
    ensures Calendared(Visits(cx, n)) && forall v | v in Visits(cx, n) :: v.desk < n
  {
    if n > 0 { VisitsOrdered(cx, n - 1); }
  }

  ghost predicate RunRightAt(cx: Context, n: nat, db: Db, p: Progress) {
    n <= |cx.targets| && RunRight(cx, Visits(cx, n), db, p)
  }

  lemma NextDeskRight(cx: Context, n: nat, db: Db, p: Progress)
    requires n < |cx.targets| && ProperCalendars(cx) && (forall id | id in db.rows :: id < db.nextRow)
    requires RunRightAt(cx, n, db, p)
    ensures RunRightAt(cx, n + 1, db, AfterDesk(cx, n, p))
  {
    var t, desk, vs := cx.targets[n], cx.desk(n), Visits(cx, n);
    if desk.present {
      var ws := DeskVisits(cx, n, |t.recipients|);
      DeskExactly(cx, n, p.db);
      VisitsOrdered(cx, n);
      RunRightNext(cx, vs, db, p, ws, RemindDesk(cx, t, desk, |t.recipients|, p.db), desk.commits);
      if t.recipients == [] { assert vs + ws == vs; }
    } else {
      assert vs + [] == vs;
    }
  }

  /** A whole run: each recipient of a department that still exists fares as its turn calls for, and
      the table gains exactly one row for each that was queued and kept, in order, and nothing else. */
  lemma RunExactly(cx: Context, db: Db, n: nat)
    requires n <= |cx.targets| && ProperCalendars(cx) && forall id | id in db.rows :: id < db.nextRow
    ensures var p, vs := AfterDesks(cx, n, db), Visits(cx, n);
            && |p.fates| == |vs|
            && (forall k | 0 <= k < |vs| :: p.fates[k] == FateDue(cx, db.rows, vs, k))
            && Mailed(cx, db, p.db, Chosen(vs, p.fates))
  {
    RunRightAfter(cx, db, n);
  }

  lemma RunRightStart(cx: Context, db: Db)
    ensures RunRightAt(cx, 0, db, Progress(db, []))
  {
  }

  lemma {:induction false} RunRightAfter(cx: Context, db: Db, n: nat)
    requires n <= |cx.targets| && ProperCalendars(cx) && forall id | id in db.rows :: id < db.nextRow
    ensures RunRightAt(cx, n, db, AfterDesks(cx, n, db))
  {
    if n == 0 {
      RunRightStart(cx, db);
    } else {
      RunRightAfter(cx, db, n - 1);
      NextDesk(cx, n - 1, db);
      NextDeskRight(cx, n - 1, db, AfterDesks(cx, n - 1, db));
    }
  }

  /** Each (department, recipient, day) once, every door open, every commit good, no key in use. */
  ghost predicate Unhindered(cx: Context, rows: map<RowId, Row>, vs: seq<Visit>) {
    && (forall v | v in vs :: Open(cx, v) && v.kept && !HoldsKey(rows, KeyOf(cx, v)))
    && (forall k, m | 0 <= m < k < |vs| :: !SameAim(vs[m], vs[k]))
  }

  /** Then everyone is queued, a row each, in order: and only then. */
  lemma EveryoneQueued(cx: Context, db: Db)
    requires ProperCalendars(cx) && forall id | id in db.rows :: id < db.nextRow
    ensures var n := |cx.targets|;
            var p, vs := AfterDesks(cx, n, db), Visits(cx, n);
            var m := Report(cx, p.fates, false);
            && m.recipientsTotal == |vs|
            && (m.rowsQueued == m.recipientsTotal <==> Unhindered(cx, db.rows, vs))
            && (Unhindered(cx, db.rows, vs) ==> Mailed(cx, db, p.db, vs))
  {
    var n := |cx.targets|;
    var p, vs := AfterDesks(cx, n, db), Visits(cx, n);
    RunExactly(cx, db, n);
    AllQueuedExactly(cx, db.rows, vs, p.fates);
  }

  lemma AllQueuedExactly(cx: Context, rows: map<RowId, Row>, vs: seq<Visit>, fates: seq<Fate>)
    requires FatesRight(cx, rows, vs, fates)
    ensures CountOf(fates, WasQueued) == |fates| <==> Unhindered(cx, rows, vs)
    ensures Unhindered(cx, rows, vs) ==> Chosen(vs, fates) == vs
  {
    if Unhindered(cx, rows, vs) {
      forall k | 0 <= k < |fates|
        ensures fates[k] == WasQueued
      {
        assert vs[k] in vs;
      }
      AllChosen(vs, fates);
    }
    if CountOf(fates, WasQueued) == |fates| {
      CountsAll(fates);
      forall k, m | 0 <= m < k < |vs|
        ensures !SameAim(vs[m], vs[k])
      {
        assert FateDue(cx, rows, vs, m) == WasQueued && FateDue(cx, rows, vs, k) == WasQueued;
      }
      forall v | v in vs
        ensures Open(cx, v) && v.kept && !HoldsKey(rows, KeyOf(cx, v))
      {
        var k :| 0 <= k < |vs| && vs[k] == v;
        assert FateDue(cx, rows, vs, k) == WasQueued;
      }
    }
  }

  lemma {:induction false} CountsAll(fates: seq<Fate>)
    ensures CountOf(fates, WasQueued) <= |fates|
    ensures CountOf(fates, WasQueued) == |fates| ==> forall k | 0 <= k < |fates| :: fates[k] == WasQueued
  {
    if fates != [] { CountsAll(fates[..|fates| - 1]); }
  }

  /** The summary's department figures: each target is counted once, with recipients or by its
      code, and the codes stand in the order of the targets. */
  lemma {:induction false} DepartmentsExactly(targets: seq<Target>)
    ensures WithRecipients(targets) + |CodesWithout(targets)| == |targets|
    ensures forall i | 0 <= i < |targets| && targets[i].recipients == [] ::
              && WithRecipients(targets[..i]) <= i < WithRecipients(targets[..i]) + |CodesWithout(targets)|
              && CodesWithout(targets)[i - WithRecipients(targets[..i])] == targets[i].code
  {
    if targets != [] {
      var past := targets[..|targets| - 1];
      DepartmentsExactly(past);
      forall i | 0 <= i < |past|
        ensures past[..i] == targets[..i]
      {
      }
    }
  }
}
