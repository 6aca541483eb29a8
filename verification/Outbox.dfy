/** The outbox tables and what each operation of app/services/email_drainer.py and
    app/services/email_enqueue.py does to them, as functions from tables to tables.
    Module Drainer holds the operations in the form the source has them. */
module Outbox {
  import opened Basics
  import opened Templates

  type RowId = nat
  type LogId = nat

  /** A run id is a fresh uuid; only equality matters. */
  type RunId = nat

  datatype Status = Queued | Sending | RenderBlocked | Sent | Failed | Cancelled | Suppressed {
    predicate Claimable() { Queued? || RenderBlocked? }

    predicate Terminal() { Sent? || Failed? || Cancelled? || Suppressed? }

    /** The outcomes that give the dedup key back. */
    predicate FreesKey() { Failed? || Cancelled? }
  }

  datatype Reason =
    | EntityGone(what: string)
    | TemplateSilent
    | WindowClosed(end: Time)
    | RenderProblem(detail: string)
    | RecipientSuppressed
    | EmailDisabled
    | SesError(error: Option<string>, code: Option<string>)
    | ReleaseWithdrawn

  datatype Row = Row(
    templateKey: string,
    recipient: string,
    workItem: Option<int>,
    event: Option<int>,
    department: Option<int>,
    dedupKey: Option<string>,
    dispatchAt: Time,
    status: Status,
    claimedAt: Option<Time>,
    claimedBy: Option<RunId>,
    attempts: nat,
    blockedSince: Option<Time>,
    lastError: Option<Reason>,
    sentAt: Option<Time>,
    messageId: Option<string>,
    createdAt: Time)

  datatype Channel = Email | Slack

  datatype LogStatus =
    | LogSent | LogFailed | LogSuppressed | LogCancelled | LogRenderBlocked
    | LogDebounced | LogCircuitOpen

  /** One notification_logs row. `source` is auxiliary: it names the outbox row an entry is
      about, which the table does not record. */
  datatype Log = Log(
    id: LogId,
    channel: Channel,
    templateKey: string,
    recipient: string,
    workItem: Option<int>,
    status: LogStatus,
    error: Option<Reason>,
    createdAt: Time,
    source: Option<RowId>)

  datatype Rendered = Rendered(subject: string, text: string)

  /** One email_message_bodies row. */
  datatype Body = Body(logId: LogId, content: Rendered, createdAt: Time)

  datatype Db = Db(rows: map<RowId, Row>, nextRow: RowId, logs: seq<Log>, nextLog: LogId, bodies: seq<Body>)

  const EMPTY: Db := Db(map[], 0, [], 0, [])

  datatype Config = Config(
    maxAttempts: int,
    renderRetry: Time,
    renderMaxAge: Time,
    batchSize: nat,
    maxSeconds: Time,
    dailyLimit: nat,
    retention: Time)
  {
    predicate Positive() {
      maxAttempts > 0 && renderRetry > 0 && renderMaxAge > 0 && batchSize > 0 && maxSeconds > 0
    }
  }

  // ---------------------------------------------------------------- SES errors

  datatype ErrorKind = Transient | TransientAccount | AccountHalt | Permanent

  predicate EndsWith(s: string, suffix: string) {
    |suffix| <= |s| && s[|s| - |suffix|..] == suffix
  }

  /** classify_ses_error */
  function Classify(code: Option<string>): ErrorKind {
    if code.None? || code.value == "" then Transient
    else
      var c := if EndsWith(code.value, "Exception") then code.value[..|code.value| - 9] else code.value;
      if c in {"AccountSendingPaused", "ConfigurationSetSendingPaused"} then AccountHalt
      else if c in {"Throttling", "TooManyRequests"} then TransientAccount
      else if c in {"MessageRejected", "MailFromDomainNotVerified", "ConfigurationSetDoesNotExist"} then Permanent
      else Transient
  }

  // ------------------------------------------------------- processing one row

  datatype RenderResult = RenderOk(content: Rendered) | RenderBroken(detail: string)

  /** What send_via_ses reports. A failure can hide a message SES took: its answer was lost, or it
      took an attempt whose retry inside the client failed. process_row cannot see `taken`. */
  datatype SesResult =
    | Accepted(messageId: string)
    | Rejected(taken: bool, error: Option<string>, code: Option<string>)

  /** Everything process_row learns from outside the row: which referenced entities it finds,
      the template rows, what rendering and SES answer, and the clock at its three readings
      (the window test, the SES call, and the writes that end the step). */
  datatype Inputs = Inputs(
    workItemFound: bool,
    departmentFound: bool,
    eventFound: bool,
    catalog: Catalog,
    checkedAt: Time,
    render: RenderResult,
    suppressed: bool,
    emailEnabled: bool,
    calledAt: Time,
    ses: SesResult,
    doneAt: Time)

  /** What process_row hands back: a status, or one of the two exceptions that end the run. */
  datatype Outcome =
    | Returned(status: Status)
    | RaisedHalt(reason: Reason)
    | RaisedThrottle(status: Status, reason: Reason)

  /** An audit entry, and the body stored with it. */
  datatype Entry = Entry(status: LogStatus, error: Option<Reason>, body: Option<Rendered>)

  datatype Effect = Effect(row: Row, entry: Option<Entry>, outcome: Outcome)

  const REMINDER_KIND := "submission_reminder"

  predicate IsReminder(row: Row) { EndsWith(row.templateKey, REMINDER_KIND) }

  /** _missing_required_entities, after the lookups: a null key finds nothing. */
  function Missing(row: Row, x: Inputs): Option<string> {
    if IsReminder(row) then
      if !(row.department.Some? && x.departmentFound) then Some("department")
      else if !(row.event.Some? && x.eventFound) then Some("event_cycle")
      else None
    else if !(row.workItem.Some? && x.workItemFound) then Some("work item")
    else None
  }

  /** The row may be rendered: its entities exist, its template speaks, its window has not closed. */
  predicate MayRender(row: Row, x: Inputs) {
    && Missing(row, x).None?
    && Speaks(x.catalog, row.event)
    && (var end := WindowEnd(x.catalog, row.event); end.Some? ==> x.checkedAt <= end.value)
  }

  predicate Renders(row: Row, x: Inputs) { MayRender(row, x) && x.render.RenderOk? }

  /** The step reaches send_via_ses. */
  predicate CallsSes(row: Row, x: Inputs) { Renders(row, x) && !x.suppressed && x.emailEnabled }

  /** SES takes the row's message, whatever process_row is told. */
  predicate SesTakes(row: Row, x: Inputs) { CallsSes(row, x) && (x.ses.Accepted? || x.ses.taken) }

  predicate SesRefuses(row: Row, x: Inputs) { CallsSes(row, x) && x.ses.Rejected? }

  predicate Halts(row: Row, x: Inputs) { SesRefuses(row, x) && Classify(x.ses.code) == AccountHalt }

  /** A failure the drainer retries: it costs the row one attempt. */
  predicate FailsTransiently(row: Row, x: Inputs) {
    SesRefuses(row, x) && Classify(x.ses.code) in {Transient, TransientAccount}
  }

  /** The drainer will try the row again. */
  predicate TriesAgain(cfg: Config, row: Row, x: Inputs) {
    Halts(row, x) || (FailsTransiently(row, x) && row.attempts + 1 < cfg.maxAttempts)
  }

  function LogStatusOf(s: Status): LogStatus
    requires s.Terminal()
  {
    match s
    case Sent => LogSent
    case Suppressed => LogSuppressed
    case Failed => LogFailed
    case Cancelled => LogCancelled
  }

  /** transport_backoff */
  function Backoff(attempts: nat): Time { 10 * Pow2(attempts) * MINUTE }

  /** _apply_terminal_state on the row itself. Claim fields stay as they are. */
  function Ended(row: Row, status: Status, reason: Option<Reason>): Row
    requires status.Terminal()
  {
    row.(status := status, lastError := reason, dedupKey := if status.FreesKey() then None else row.dedupKey)
  }

  function EndWith(row: Row, status: Status, reason: Option<Reason>, body: Option<Rendered>): Effect
    requires status.Terminal()
  {
    Effect(Ended(row, status, reason), Some(Entry(LogStatusOf(status), reason, body)), Returned(status))
  }

  function Unclaimed(row: Row): Row { row.(claimedAt := None, claimedBy := None) }

  /** _block_on_render */
  function Blocked(cfg: Config, row: Row, reason: Reason, now: Time): Effect {
    if row.blockedSince.Some? && now - row.blockedSince.value >= cfg.renderMaxAge then
      EndWith(row, Failed, Some(reason), None)
    else
      var parked := Unclaimed(row).(status := RenderBlocked, lastError := Some(reason),
                                    dispatchAt := now + cfg.renderRetry);
      if row.blockedSince.None? then
        Effect(parked.(blockedSince := Some(now)), Some(Entry(LogRenderBlocked, Some(reason), None)),
               Returned(RenderBlocked))
      else
        Effect(parked, None, Returned(RenderBlocked))
  }

  /** _requeue_or_fail */
  function Retried(cfg: Config, row: Row, reason: Reason, content: Rendered, now: Time): Effect {
    var tried := row.(attempts := row.attempts + 1);
    if tried.attempts >= cfg.maxAttempts then EndWith(tried, Failed, Some(reason), Some(content))
    else
      Effect(Unclaimed(tried).(status := Queued, lastError := Some(reason),
                               dispatchAt := now + Backoff(tried.attempts)),
             None, Returned(Queued))
  }

  /** _handle_transport_failure */
  function Refused(cfg: Config, row: Row, x: Inputs): Effect
    requires Renders(row, x) && x.ses.Rejected?
  {
    var reason := SesError(x.ses.error, x.ses.code);
    match Classify(x.ses.code)
    case AccountHalt =>
      Effect(Unclaimed(row).(status := Queued, lastError := Some(reason)), None, RaisedHalt(reason))
    case Permanent => EndWith(row, Failed, Some(reason), Some(x.render.content))
    case Transient => Retried(cfg, row, reason, x.render.content, x.doneAt)
    case TransientAccount =>
      var e := Retried(cfg, row, reason, x.render.content, x.doneAt);
      e.(outcome := RaisedThrottle(e.outcome.status, reason))
  }

  /** process_row on a row and its surroundings; RecordEffect writes the result to the tables. */
  function Process(cfg: Config, row: Row, x: Inputs): Effect {
    var missing := Missing(row, x);
    if missing.Some? then EndWith(row, Cancelled, Some(EntityGone(missing.value)), None)
    else if !Speaks(x.catalog, row.event) then EndWith(row, Cancelled, Some(TemplateSilent), None)
    else
      var end := WindowEnd(x.catalog, row.event);
      if end.Some? && x.checkedAt > end.value then EndWith(row, Cancelled, Some(WindowClosed(end.value)), None)
      else
        match x.render
        case RenderBroken(detail) => Blocked(cfg, row, RenderProblem(detail), x.doneAt)
        case RenderOk(content) =>
          var clean := row.(blockedSince := None);
          if x.suppressed then EndWith(clean, Suppressed, Some(RecipientSuppressed), Some(content))
          else if !x.emailEnabled then EndWith(clean, Suppressed, Some(EmailDisabled), Some(content))
          else
            match x.ses
            case Accepted(messageId) =>
              EndWith(clean.(sentAt := Some(x.doneAt), messageId := Some(messageId)), Sent, None, Some(content))
            case Rejected(_, _, _) => Refused(cfg, clean, x)
  }

  /** Adds one audit row and, when there is one, its body. */
  function AppendLog(db: Db, row: Row, id: RowId, e: Entry, at: Time): Db {
    var log := Log(db.nextLog, Email, row.templateKey, row.recipient, row.workItem, e.status, e.error, at, Some(id));
    db.(logs := db.logs + [log],
        nextLog := db.nextLog + 1,
        bodies := if e.body.Some? then db.bodies + [Body(db.nextLog, e.body.value, at)] else db.bodies)
  }

  function RecordEffect(db: Db, id: RowId, e: Effect, at: Time): Db {
    var db' := db.(rows := db.rows[id := e.row]);
    if e.entry.Some? then AppendLog(db', e.row, id, e.entry.value, at) else db'
  }

  function ProcessRow(cfg: Config, db: Db, id: RowId, x: Inputs): Db
    requires id in db.rows
  {
    RecordEffect(db, id, Process(cfg, db.rows[id], x), x.doneAt)
  }

  // --------------------------------------------------- claiming and its inverses

  const STALE_AFTER: Time := 30 * MINUTE

  /** reap_stale_claims: the test, and what happens to one row. */
  predicate Stale(row: Row, now: Time) {
    row.status == Sending && row.claimedAt.Some? && row.claimedAt.value <= now - STALE_AFTER
  }

  function Reaped(row: Row): Row {
    if row.blockedSince.Some? then Unclaimed(row).(status := RenderBlocked)
    else Unclaimed(row).(status := Queued, attempts := row.attempts + 1)
  }

  function Reap(db: Db, now: Time): Db {
    db.(rows := map id | id in db.rows :: if Stale(db.rows[id], now) then Reaped(db.rows[id]) else db.rows[id])
  }

  predicate Due(row: Row, now: Time) { row.status.Claimable() && row.dispatchAt <= now }

  /** The claim order: dispatch time, then row id. */
  predicate Before(rows: map<RowId, Row>, a: RowId, b: RowId)
    requires a in rows && b in rows
  {
    rows[a].dispatchAt < rows[b].dispatchAt || (rows[a].dispatchAt == rows[b].dispatchAt && a < b)
  }

  /** `batch` is what ORDER BY dispatch_at, id LIMIT size selects among the due rows. */
  ghost predicate IsDueBatch(rows: map<RowId, Row>, now: Time, size: nat, batch: seq<RowId>) {
    && |batch| <= size
    && (forall id | id in batch :: id in rows && Due(rows[id], now))
    && (forall i, j | 0 <= i < j < |batch| :: Before(rows, batch[i], batch[j]))
    && (forall id | id in rows && Due(rows[id], now) && id !in batch ::
          |batch| == size && forall k | k in batch :: Before(rows, k, id))
  }

  /** What a claim can select while others hold locks: distinct due rows, no more than `size`. */
  ghost predicate IsClaimBatch(rows: map<RowId, Row>, now: Time, size: nat, batch: seq<RowId>) {
    && |batch| <= size
    && (forall id | id in batch :: id in rows && Due(rows[id], now))
    && (forall i, j | 0 <= i < j < |batch| :: batch[i] != batch[j])
  }

  lemma DueBatchIsClaimBatch(rows: map<RowId, Row>, now: Time, size: nat, batch: seq<RowId>)
    requires IsDueBatch(rows, now, size, batch)
    ensures IsClaimBatch(rows, now, size, batch)
  {
    forall i, j | 0 <= i < j < |batch|
      ensures batch[i] != batch[j]
    {
      assert Before(rows, batch[i], batch[j]);
    }
  }

  function Claimed(row: Row, run: RunId, now: Time): Row {
    row.(status := Sending, claimedAt := Some(now), claimedBy := Some(run))
  }

  /** claim_due_rows, given the batch the database selects. */
  function Claim(db: Db, run: RunId, now: Time, batch: seq<RowId>): Db {
    db.(rows := map id | id in db.rows :: if id in batch then Claimed(db.rows[id], run, now) else db.rows[id])
  }

  predicate HeldBy(row: Row, run: RunId) { row.claimedBy == Some(run) && row.status == Sending }

  function Released(row: Row): Row {
    Unclaimed(row).(status := if row.blockedSince.Some? then RenderBlocked else Queued)
  }

  /** _release_claims */
  function Release(db: Db, run: RunId): Db {
    db.(rows := map id | id in db.rows :: if HeldBy(db.rows[id], run) then Released(db.rows[id]) else db.rows[id])
  }

  // ------------------------------------------------------------------- pruning

  predicate Prunable(cfg: Config, row: Row, now: Time) {
    row.status.Terminal() && row.createdAt < now - cfg.retention
  }

  /** _prune_outbox */
  function Prune(cfg: Config, db: Db, now: Time): Db {
    db.(rows := map id | id in db.rows && !Prunable(cfg, db.rows[id], now) :: db.rows[id])
  }

  // ----------------------------------------------------------------- enqueueing

  datatype Request = Request(
    templateKey: string,
    recipient: string,
    workItem: Option<int>,
    event: Option<int>,
    department: Option<int>,
    dedupKey: Option<string>,
    dispatchAt: Option<Time>)

  datatype EnqueueOutcome = Created | Deferred | Duplicate | BlockedWindow | BlockedInactive {
    predicate Queues() { Created? || Deferred? }

    predicate Blocks() { BlockedWindow? || BlockedInactive? }
  }

  predicate HoldsKey(rows: map<RowId, Row>, key: string) {
    exists id | id in rows :: rows[id].dedupKey == Some(key)
  }

  /** When the request would go out: its own date, but never before the window opens. */
  function FloorDate(q: Request, c: Catalog, now: Time): Time {
    var asked := if q.dispatchAt.Some? then q.dispatchAt.value else now;
    var start := WindowStart(c, q.event);
    if start.Some? && asked < start.value then start.value else asked
  }

  function BlockedBy(q: Request, c: Catalog, now: Time): Option<EnqueueOutcome> {
    if !Speaks(c, q.event) then Some(BlockedInactive)
    else
      var end := WindowEnd(c, q.event);
      if end.Some? && now > end.value then Some(BlockedWindow) else None
  }

  function NewRow(q: Request, c: Catalog, now: Time): Row {
    Row(q.templateKey, q.recipient, q.workItem, q.event, q.department, q.dedupKey, FloorDate(q, c, now),
        Queued, None, None, 0, None, None, None, None, now)
  }

  function EnqueueVerdict(rows: map<RowId, Row>, q: Request, c: Catalog, now: Time): EnqueueOutcome {
    var blocked := BlockedBy(q, c, now);
    if blocked.Some? then blocked.value
    else if q.dedupKey.Some? && HoldsKey(rows, q.dedupKey.value) then Duplicate
    else if FloorDate(q, c, now) != (if q.dispatchAt.Some? then q.dispatchAt.value else now) then Deferred
    else Created
  }

  /** enqueue_email, once the caller's transaction commits. */
  function Enqueue(db: Db, q: Request, c: Catalog, now: Time): Db {
    if EnqueueVerdict(db.rows, q, c, now).Queues() then
      db.(rows := db.rows[db.nextRow := NewRow(q, c, now)], nextRow := db.nextRow + 1)
    else db
  }

  // ------------------------------------------- writers outside the drain itself

  /** Unfinalizing a request cancels its release email while no run holds the row. */
  function Withdrawn(row: Row): Effect {
    EndWith(row, Cancelled, Some(ReleaseWithdrawn), None)
  }

  /** The operator's requeue of a failed or cancelled row. It does not restore the dedup key. */
  function Requeued(row: Row, now: Time): Row {
    row.(status := Queued, dispatchAt := now, attempts := 0, lastError := None, blockedSince := None,
         claimedAt := None, claimedBy := None, sentAt := None, messageId := None)
  }

  /** ON DELETE SET NULL on the row's references. */
  function Detached(row: Row, workItem: bool, event: bool, department: bool): Row {
    row.(workItem := if workItem then None else row.workItem,
         event := if event then None else row.event,
         department := if department then None else row.department)
  }
}
