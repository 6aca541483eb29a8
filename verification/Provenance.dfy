/** Where every SENT row, audit entry and stored body of a history comes from, and whom it is
    addressed to. */
module Provenance {
  import opened Basics
  import opened Outbox
  import opened World
  import opened Histories
  import opened Guarantees
  import opened Outcomes

  /** A history has the states of its beginning. */
  lemma SamePast(cfg: Config, lat: Latency, t0: Time, steps: seq<Step>, m: nat)
    requires Valid(cfg, lat, t0, steps) && m < |steps|
    ensures StateAt(cfg, lat, t0, Past(steps), m) == StateAt(cfg, lat, t0, steps, m)
    ensures StateAt(cfg, lat, t0, steps, |steps| - 1) == Exec(cfg, lat, t0, Past(steps))
  {
    assert Past(steps)[..m] == steps[..m];
  }

  // ---------------------------------------------------------------- entries and bodies

  /** The m-th step wrote this entry about the row, in the row's own name. */
  ghost predicate WroteAt(cfg: Config, lat: Latency, t0: Time, steps: seq<Step>, m: nat, id: RowId, log: Log)
    requires Valid(cfg, lat, t0, steps) && m < |steps|
  {
    var w, step := StateAt(cfg, lat, t0, steps, m), steps[m];
    Wrote(cfg, w, step, id, log)
  }

  ghost predicate Wrote(cfg: Config, w: World, step: Step, id: RowId, log: Log) {
    && id in w.db.rows
    && var row := w.db.rows[id];
       && log.channel == Email && log.templateKey == row.templateKey && log.recipient == row.recipient
       && log.workItem == row.workItem
       && match step
          case CommitRow(run, x) =>
            && EventOf(w, step, id).Some? && log.createdAt == x.doneAt
            && var e := Process(cfg, row, x).entry;
               e.Some? && log.status == e.value.status && log.error == e.value.error
          case WithdrawRow(i) =>
            i == id && log.createdAt == w.clock && log.status == LogCancelled && log.error == Some(ReleaseWithdrawn)
          case _ => false
  }

  /** What a step adds to the log. */
  lemma LogStep(cfg: Config, lat: Latency, w: World, step: Step, id: RowId, log: Log)
    requires Enabled(cfg, lat, w, step) && log in Apply(cfg, lat, w, step).db.logs && log.source == Some(id)
    ensures log in w.db.logs || Wrote(cfg, w, step, id, log)
  {
    match step {
      case WithdrawRow(i) => RecordedLog(w.db, i, Withdrawn(w.db.rows[i]), w.clock, log);
      case CommitRow(run, x) =>
        var i := InFlight(w.runs[run]);
        RecordedLog(w.db, i, Process(cfg, w.db.rows[i], x), x.doneAt, log);
        ColumnsExactly(cfg, w.db.rows[i], x);
      case OtherLog(other) =>
      case _ => assert Apply(cfg, lat, w, step).db.logs == w.db.logs;
    }
  }

  lemma RecordedLog(db: Db, i: RowId, e: Effect, at: Time, log: Log)
    requires log in RecordEffect(db, i, e, at).logs
    ensures || log in db.logs
            || (&& e.entry.Some? && log.source == Some(i) && log.channel == Email
                && log.templateKey == e.row.templateKey && log.recipient == e.row.recipient
                && log.workItem == e.row.workItem && log.status == e.entry.value.status
                && log.error == e.entry.value.error && log.createdAt == at)
  {
  }

  /** Every entry about a row was written by a commit or a withdrawal of that very row, and says
      what that step says. */
  lemma {:induction false} Writer(cfg: Config, lat: Latency, t0: Time, steps: seq<Step>, id: RowId, log: Log)
    returns (m: nat)
    requires Valid(cfg, lat, t0, steps) && log in Exec(cfg, lat, t0, steps).db.logs && log.source == Some(id)
    ensures m < |steps| && WroteAt(cfg, lat, t0, steps, m, id, log)
    decreases |steps|
  {
    var w := Exec(cfg, lat, t0, Past(steps));
    if log in w.db.logs {
      m := Writer(cfg, lat, t0, Past(steps), id, log);
      SamePast(cfg, lat, t0, steps, m);
    } else {
      m := |steps| - 1;
      SamePast(cfg, lat, t0, steps, m);
      LogStep(cfg, lat, w, steps[m], id, log);
    }
  }

  /** The step stored this body: it rendered this very text. */
  ghost predicate Stored(cfg: Config, w: World, step: Step, b: Body) {
    && step.CommitRow? && step.run in w.runs && w.runs[step.run].next < |w.runs[step.run].batch|
    && var id := InFlight(w.runs[step.run]);
       && id in w.db.rows && b.createdAt == step.x.doneAt
       && Wanted(w.db.rows[id], step.x) && step.x.render == RenderOk(b.content)
  }

  lemma BodyStep(cfg: Config, lat: Latency, w: World, step: Step, b: Body)
    requires Enabled(cfg, lat, w, step) && b in Apply(cfg, lat, w, step).db.bodies
    ensures b in w.db.bodies || Stored(cfg, w, step, b)
  {
    match step {
      case CommitRow(run, x) => EntryExactly(cfg, w.db.rows[InFlight(w.runs[run])], x);
      case WithdrawRow(i) =>
      case OtherLog(other) =>
      case _ => assert Apply(cfg, lat, w, step).db.bodies == w.db.bodies;
    }
  }

  /** Every stored body is the text some committed processing rendered. */
  lemma {:induction false} BodyWriter(cfg: Config, lat: Latency, t0: Time, steps: seq<Step>, b: Body) returns (m: nat)
    requires Valid(cfg, lat, t0, steps) && b in Exec(cfg, lat, t0, steps).db.bodies
    ensures m < |steps| && Stored(cfg, StateAt(cfg, lat, t0, steps, m), steps[m], b)
    decreases |steps|
  {
    var w := Exec(cfg, lat, t0, Past(steps));
    if b in w.db.bodies {
      m := BodyWriter(cfg, lat, t0, Past(steps), b);
      SamePast(cfg, lat, t0, steps, m);
    } else {
      m := |steps| - 1;
      SamePast(cfg, lat, t0, steps, m);
      BodyStep(cfg, lat, w, steps[m], b);
    }
  }

  // ------------------------------------------------------------------ what SENT means

  /** The m-th step committed a processing of the row whose message SES accepted. */
  ghost predicate AcceptedAt(cfg: Config, lat: Latency, t0: Time, steps: seq<Step>, m: nat, id: RowId)
    requires Valid(cfg, lat, t0, steps) && m < |steps|
  {
    Accepts(StateAt(cfg, lat, t0, steps, m), steps[m], id)
  }

  ghost predicate Accepts(w: World, step: Step, id: RowId) {
    && step.CommitRow? && id in w.db.rows && EventOf(w, step, id).Some?
    && Wanted(w.db.rows[id], step.x) && step.x.render.RenderOk? && !step.x.suppressed && step.x.emailEnabled
    && step.x.ses.Accepted?
  }

  lemma SentStep(cfg: Config, lat: Latency, w: World, step: Step, id: RowId)
    requires Enabled(cfg, lat, w, step) && id in Apply(cfg, lat, w, step).db.rows
    requires forall i | i in w.db.rows :: i < w.db.nextRow
    requires Apply(cfg, lat, w, step).db.rows[id].status == Sent
    ensures var row' := Apply(cfg, lat, w, step).db.rows[id];
            || (id in w.db.rows && w.db.rows[id].status == Sent && row'.sentAt == w.db.rows[id].sentAt
                && row'.messageId == w.db.rows[id].messageId)
            || (Accepts(w, step, id) && row'.sentAt == Some(step.x.doneAt)
                && row'.messageId == Some(step.x.ses.messageId))
  {
    if id in w.db.rows {
      RowFollows(cfg, lat, w, step, id);
      if EventOf(w, step, id).Some? {
        EventLawful(cfg, lat, w, step, id);
        if step.CommitRow? {
          StatusExactly(cfg, w.db.rows[id], step.x);
          ColumnsExactly(cfg, w.db.rows[id], step.x);
        }
      }
    } else {
      RowAppears(cfg, lat, w, step, id);
    }
  }

  /** A row is SENT exactly by a committed processing whose message SES accepted, and carries that
      message's id and time. */
  lemma {:induction false} SentMeansAccepted(cfg: Config, lat: Latency, t0: Time, steps: seq<Step>, id: RowId)
    returns (m: nat)
    requires Valid(cfg, lat, t0, steps) && id in Exec(cfg, lat, t0, steps).db.rows
    requires Exec(cfg, lat, t0, steps).db.rows[id].status == Sent
    ensures m < |steps| && AcceptedAt(cfg, lat, t0, steps, m, id)
    ensures var row := Exec(cfg, lat, t0, steps).db.rows[id];
            row.sentAt == Some(steps[m].x.doneAt) && row.messageId == Some(steps[m].x.ses.messageId)
    decreases |steps|
  {
    var w, step := Exec(cfg, lat, t0, Past(steps)), Last(steps);
    CoupledAlways(cfg, lat, t0, Past(steps));
    SentStep(cfg, lat, w, step, id);
    SamePast(cfg, lat, t0, steps, |steps| - 1);
    if Accepts(w, step, id) && Exec(cfg, lat, t0, steps).db.rows[id].messageId == Some(step.x.ses.messageId)
       && Exec(cfg, lat, t0, steps).db.rows[id].sentAt == Some(step.x.doneAt) {
      m := |steps| - 1;
    } else {
      m := SentMeansAccepted(cfg, lat, t0, Past(steps), id);
      SamePast(cfg, lat, t0, steps, m);
    }
  }

  /** And conversely: accepting leaves the row SENT, with that id and time, and a SENT entry. */
  lemma AcceptedIsSent(cfg: Config, lat: Latency, w: World, step: Step, id: RowId)
    requires Enabled(cfg, lat, w, step) && Accepts(w, step, id)
    ensures var db' := Apply(cfg, lat, w, step).db;
            && id in db'.rows && db'.rows[id].status == Sent && db'.rows[id].sentAt == Some(step.x.doneAt)
            && db'.rows[id].messageId == Some(step.x.ses.messageId)
            && |db'.logs| == |w.db.logs| + 1
            && var log := db'.logs[|w.db.logs|];
               log.status == LogSent && log.source == Some(id) && log.recipient == w.db.rows[id].recipient
  {
    StatusExactly(cfg, w.db.rows[id], step.x);
    ColumnsExactly(cfg, w.db.rows[id], step.x);
    EntryExactly(cfg, w.db.rows[id], step.x);
  }

  /** Every SENT entry about a row records such a processing. */
  lemma SentEntryMeansAccepted(cfg: Config, lat: Latency, t0: Time, steps: seq<Step>, id: RowId, log: Log)
    returns (m: nat)
    requires Valid(cfg, lat, t0, steps) && log in Exec(cfg, lat, t0, steps).db.logs
    requires log.source == Some(id) && log.status == LogSent
    ensures m < |steps| && AcceptedAt(cfg, lat, t0, steps, m, id) && log.createdAt == steps[m].x.doneAt
  {
    m := Writer(cfg, lat, t0, steps, id, log);
    var w := StateAt(cfg, lat, t0, steps, m);
    if steps[m].CommitRow? {
      EntryExactly(cfg, w.db.rows[id], steps[m].x);
      StatusExactly(cfg, w.db.rows[id], steps[m].x);
    }
  }

  // ------------------------------------------------------------- whom a row is for

  ghost predicate LosesItem(steps: seq<Step>, i: nat, j: nat, id: RowId) {
    j <= |steps| && exists m | i < m < j :: steps[m].DetachRow? && steps[m].id == id && steps[m].workItem
  }

  ghost predicate LosesEvent(steps: seq<Step>, i: nat, j: nat, id: RowId) {
    j <= |steps| && exists m | i < m < j :: steps[m].DetachRow? && steps[m].id == id && steps[m].event
  }

  ghost predicate LosesDepartment(steps: seq<Step>, i: nat, j: nat, id: RowId) {
    j <= |steps| && exists m | i < m < j :: steps[m].DetachRow? && steps[m].id == id && steps[m].department
  }

  /** The i-th step queues this request, as the row with this id. */
  ghost predicate QueuesAt(cfg: Config, lat: Latency, t0: Time, steps: seq<Step>, i: nat, id: RowId)
    requires Valid(cfg, lat, t0, steps)
  {
    && i < |steps| && steps[i].Insert?
    && var w := StateAt(cfg, lat, t0, steps, i);
       id == w.db.nextRow && EnqueueVerdict(w.db.rows, steps[i].q, steps[i].catalog, w.clock) in {Created, Deferred}
  }

  /** The address columns after one more step. */
  lemma AddressStep(cfg: Config, lat: Latency, w: World, step: Step, id: RowId)
    requires Enabled(cfg, lat, w, step) && id in w.db.rows && id < w.db.nextRow
    requires id in Apply(cfg, lat, w, step).db.rows
    ensures var row, row' := w.db.rows[id], Apply(cfg, lat, w, step).db.rows[id];
            var mine := step.DetachRow? && step.id == id;
            && row'.templateKey == row.templateKey && row'.recipient == row.recipient && row'.createdAt == row.createdAt
            && row'.workItem == (if mine && step.workItem then None else row.workItem)
            && row'.event == (if mine && step.event then None else row.event)
            && row'.department == (if mine && step.department then None else row.department)
  {
    RowFollows(cfg, lat, w, step, id);
    if step.CommitRow? { ColumnsExactly(cfg, w.db.rows[id], step.x); }
  }

  /** Whatever happens to a row, it keeps the template and recipient it was queued for, and what it
      is about until that is deleted. */
  lemma {:induction false} RowAddressed(cfg: Config, lat: Latency, t0: Time, steps: seq<Step>, i: nat, j: nat,
          id: RowId)
    requires Valid(cfg, lat, t0, steps) && QueuesAt(cfg, lat, t0, steps, i, id) && i < j <= |steps|
    requires id in StateAt(cfg, lat, t0, steps, j).db.rows
    ensures var row, q := StateAt(cfg, lat, t0, steps, j).db.rows[id], steps[i].q;
            && row.templateKey == q.templateKey && row.recipient == q.recipient
            && row.createdAt == StateAt(cfg, lat, t0, steps, i).clock
            && row.workItem == (if LosesItem(steps, i, j, id) then None else q.workItem)
            && row.event == (if LosesEvent(steps, i, j, id) then None else q.event)
            && row.department == (if LosesDepartment(steps, i, j, id) then None else q.department)
    decreases j - i
  {
    StateAfter(cfg, lat, t0, steps, i);
    var w0 := StateAt(cfg, lat, t0, steps, i);
    QueuedExactly(w0.db, steps[i].q, steps[i].catalog, w0.clock);
    if j > i + 1 {
      StateAfter(cfg, lat, t0, steps, j - 1);
      NextRowMonotone(cfg, lat, t0, steps, i + 1, j - 1);
      var w := StateAt(cfg, lat, t0, steps, j - 1);
      if id !in w.db.rows { RowAppears(cfg, lat, w, steps[j - 1], id); }
      RowAddressed(cfg, lat, t0, steps, i, j - 1, id);
      AddressStep(cfg, lat, w, steps[j - 1], id);
      LosesMore(steps, i, j, id);
    }
  }

  lemma LosesMore(steps: seq<Step>, i: nat, j: nat, id: RowId)
    requires i + 1 < j <= |steps|
    ensures var step := steps[j - 1];
            var mine := step.DetachRow? && step.id == id;
            && (LosesItem(steps, i, j, id) <==> LosesItem(steps, i, j - 1, id) || (mine && step.workItem))
            && (LosesEvent(steps, i, j, id) <==> LosesEvent(steps, i, j - 1, id) || (mine && step.event))
            && (LosesDepartment(steps, i, j, id) <==> LosesDepartment(steps, i, j - 1, id) || (mine && step.department))
  {
  }

  /** And every audit entry about the row names that template and recipient. */
  lemma LogAddressed(cfg: Config, lat: Latency, t0: Time, steps: seq<Step>, i: nat, id: RowId, log: Log)
    requires Valid(cfg, lat, t0, steps) && QueuesAt(cfg, lat, t0, steps, i, id)
    requires log in Exec(cfg, lat, t0, steps).db.logs && log.source == Some(id)
    ensures log.channel == Email && log.templateKey == steps[i].q.templateKey && log.recipient == steps[i].q.recipient
  {
    var m := Writer(cfg, lat, t0, steps, id, log);
    if m <= i {
      PrefixValid(cfg, lat, t0, steps, m);
      CoupledAlways(cfg, lat, t0, steps[..m]);
      NextRowMonotone(cfg, lat, t0, steps, m, i);
      assert false;
    }
    RowAddressed(cfg, lat, t0, steps, i, m, id);
  }
}
