/** What processing and enqueueing come to, case by case, said of the columns they read and write
    and of nothing between. */
module Outcomes {
  import opened Basics
  import opened Templates
  import opened Outbox

  // ------------------------------------------------------------------- SES error codes

  lemma Stripped(code: string, name: string)
    requires EndsWith(code, "Exception")
    ensures code[..|code| - 9] == name <==> code == name + "Exception"
  {
    assert code == code[..|code| - 9] + code[|code| - 9..];
    assert (name + "Exception")[..|name|] == name;
  }

  lemma NamesPlain(name: string)
    requires name in {"AccountSendingPaused", "ConfigurationSetSendingPaused", "Throttling", "TooManyRequests",
                      "MessageRejected", "MailFromDomainNotVerified", "ConfigurationSetDoesNotExist"}
    ensures !EndsWith(name, "Exception") && EndsWith(name + "Exception", "Exception")
    ensures name != name + "Exception"
  {
    assert name[|name| - 1] != "Exception"[8];
    assert (name + "Exception")[|name|..] == "Exception";
  }

  predicate Code(code: Option<string>, name: string) { code == Some(name) || code == Some(name + "Exception") }

  /** Either spelling of a code, with or without boto3's suffix. */
  lemma CodeMatches(code: string, name: string)
    requires name in {"AccountSendingPaused", "ConfigurationSetSendingPaused", "Throttling", "TooManyRequests",
                      "MessageRejected", "MailFromDomainNotVerified", "ConfigurationSetDoesNotExist"}
    ensures var c := if EndsWith(code, "Exception") then code[..|code| - 9] else code;
            c == name <==> Code(Some(code), name)
  {
    NamesPlain(name);
    if EndsWith(code, "Exception") { Stripped(code, name); }
  }

  /** Every code SES can answer with falls in its class, and every other code is transient. */
  lemma ClassifyExactly(code: Option<string>)
    ensures Classify(code) == AccountHalt <==>
            Code(code, "AccountSendingPaused") || Code(code, "ConfigurationSetSendingPaused")
    ensures Classify(code) == TransientAccount <==> Code(code, "Throttling") || Code(code, "TooManyRequests")
    ensures Classify(code) == Permanent <==>
            || Code(code, "MessageRejected") || Code(code, "MailFromDomainNotVerified")
            || Code(code, "ConfigurationSetDoesNotExist")
  {
    if code.Some? {
      CodeMatches(code.value, "AccountSendingPaused");
      CodeMatches(code.value, "ConfigurationSetSendingPaused");
      CodeMatches(code.value, "Throttling");
      CodeMatches(code.value, "TooManyRequests");
      CodeMatches(code.value, "MessageRejected");
      CodeMatches(code.value, "MailFromDomainNotVerified");
      CodeMatches(code.value, "ConfigurationSetDoesNotExist");
    }
  }

  predicate HaltCode(code: Option<string>) {
    Code(code, "AccountSendingPaused") || Code(code, "ConfigurationSetSendingPaused")
  }

  predicate ThrottleCode(code: Option<string>) { Code(code, "Throttling") || Code(code, "TooManyRequests") }

  predicate PermanentCode(code: Option<string>) {
    || Code(code, "MessageRejected") || Code(code, "MailFromDomainNotVerified")
    || Code(code, "ConfigurationSetDoesNotExist")
  }

  // ------------------------------------------------------------------- processing a row

  ghost predicate OfReminder(row: Row) { exists prefix: string :: row.templateKey == prefix + "submission_reminder" }

  /** What the row's email is about still exists. */
  ghost predicate Found(row: Row, x: Inputs) {
    if OfReminder(row) then row.department.Some? && x.departmentFound && row.event.Some? && x.eventFound
    else row.workItem.Some? && x.workItemFound
  }

  /** The template is active, and not switched off for the row's event. */
  predicate Active(c: Catalog, event: Option<int>) {
    && c.base.Some? && c.base.value.active
    && !(event.Some? && c.override.Some? && c.override.value.active == Some(false))
  }

  /** The row's event has a window, and it closed before this instant. */
  predicate ClosedBy(c: Catalog, event: Option<int>, at: Time) {
    event.Some? && c.override.Some? && c.override.value.windowEnd.Some? && at > c.override.value.windowEnd.value
  }

  ghost predicate Wanted(row: Row, x: Inputs) {
    Found(row, x) && Active(x.catalog, row.event) && !ClosedBy(x.catalog, row.event, x.checkedAt)
  }

  lemma ReminderKind(row: Row)
    ensures IsReminder(row) <==> OfReminder(row)
  {
    var key := row.templateKey;
    if IsReminder(row) {
      assert key == key[..|key| - |REMINDER_KIND|] + "submission_reminder";
    }
    if OfReminder(row) {
      var prefix: string :| key == prefix + "submission_reminder";
      assert key[|key| - |REMINDER_KIND|..] == REMINDER_KIND;
    }
  }

  /** What the merged template says is what its base and override say. */
  lemma CatalogExactly(c: Catalog, event: Option<int>)
    ensures Speaks(c, event) <==> Active(c, event)
    ensures c.base.Some? ==>
              var own := event.Some? && c.override.Some?;
              && WindowStart(c, event) == (if own then c.override.value.windowStart else None)
              && WindowEnd(c, event) == (if own then c.override.value.windowEnd else None)
  {
    if c.base.Some? && c.override.Some? && event.Some? {
      MergeLaws(c.base.value, c.base.value, c.override.value, event.value);
    }
  }

  lemma WantedExactly(row: Row, x: Inputs)
    ensures MayRender(row, x) <==> Wanted(row, x)
  {
    ReminderKind(row);
    CatalogExactly(x.catalog, row.event);
  }

  predicate Ok(x: Inputs) { x.render.RenderOk? }

  predicate Withheld(x: Inputs) { x.suppressed || !x.emailEnabled }

  predicate TooOld(cfg: Config, row: Row, x: Inputs) {
    row.blockedSince.Some? && x.doneAt - row.blockedSince.value >= cfg.renderMaxAge
  }

  ghost predicate Refusal(row: Row, x: Inputs) { Wanted(row, x) && Ok(x) && !Withheld(x) && x.ses.Rejected? }

  predicate Retryable(code: Option<string>) { !HaltCode(code) && !PermanentCode(code) }

  /** The status the row is left in: when it is each of the six, for every row and every answer
      of its surroundings. */
  lemma StatusExactly(cfg: Config, row: Row, x: Inputs)
    ensures var status := Process(cfg, row, x).row.status;
            && (status == Cancelled <==> !Wanted(row, x))
            && (status == Suppressed <==> Wanted(row, x) && Ok(x) && Withheld(x))
            && (status == Sent <==> Wanted(row, x) && Ok(x) && !Withheld(x) && x.ses.Accepted?)
            && (status == RenderBlocked <==> Wanted(row, x) && !Ok(x) && !TooOld(cfg, row, x))
            && (status == Failed <==>
                || (Wanted(row, x) && !Ok(x) && TooOld(cfg, row, x))
                || (Refusal(row, x) && PermanentCode(x.ses.code))
                || (Refusal(row, x) && Retryable(x.ses.code) && row.attempts + 1 >= cfg.maxAttempts))
            && (status == Queued <==>
                || (Refusal(row, x) && HaltCode(x.ses.code))
                || (Refusal(row, x) && Retryable(x.ses.code) && row.attempts + 1 < cfg.maxAttempts))
  {
    WantedExactly(row, x);
    if x.ses.Rejected? { CodesExactly(x.ses.code); }
    if MayRender(row, x) && Ok(x) && x.ses.Rejected? { RefusedStatus(cfg, row.(blockedSince := None), x); }
  }

  lemma CodesExactly(code: Option<string>)
    ensures Classify(code) == AccountHalt <==> HaltCode(code)
    ensures Classify(code) == TransientAccount <==> ThrottleCode(code)
    ensures Classify(code) == Permanent <==> PermanentCode(code)
  {
    ClassifyExactly(code);
  }

  lemma RefusedStatus(cfg: Config, row: Row, x: Inputs)
    requires Renders(row, x) && x.ses.Rejected?
    ensures var status := Refused(cfg, row, x).row.status;
            && status in {Failed, Queued}
            && (status == Queued <==>
                HaltCode(x.ses.code) || (Retryable(x.ses.code) && row.attempts + 1 < cfg.maxAttempts))
  {
    CodesExactly(x.ses.code);
  }

  /** The columns it leaves: everything the row is about as it was, the key given up exactly by a
      failure or cancellation, the claim exactly by a row that goes on waiting. */
  lemma ColumnsExactly(cfg: Config, row: Row, x: Inputs)
    ensures var row' := Process(cfg, row, x).row;
            && row'.templateKey == row.templateKey && row'.recipient == row.recipient && row'.workItem == row.workItem
            && row'.event == row.event && row'.department == row.department && row'.createdAt == row.createdAt
            && row'.dedupKey == (if row'.status == Failed || row'.status == Cancelled then None else row.dedupKey)
            && (if row'.status == Queued || row'.status == RenderBlocked
                then row'.claimedAt.None? && row'.claimedBy.None?
                else row'.claimedAt == row.claimedAt && row'.claimedBy == row.claimedBy)
            && (if row'.status == Sent
                then row'.sentAt == Some(x.doneAt) && row'.messageId == Some(x.ses.messageId)
                else row'.sentAt == row.sentAt && row'.messageId == row.messageId)
  {
    if Renders(row, x) && x.ses.Rejected? { RefusedColumns(cfg, row.(blockedSince := None), x); }
  }

  lemma RefusedColumns(cfg: Config, row: Row, x: Inputs)
    requires Renders(row, x) && x.ses.Rejected?
    ensures var row' := Refused(cfg, row, x).row;
            && row'.status in {Failed, Queued}
            && row' == row.(status := row'.status, attempts := row'.attempts, dispatchAt := row'.dispatchAt,
                            lastError := row'.lastError,
                            dedupKey := if row'.status == Failed then None else row.dedupKey,
                            claimedAt := if row'.status == Failed then row.claimedAt else None,
                            claimedBy := if row'.status == Failed then row.claimedBy else None)
  {
  }

  /** And its clocks: the attempt count, the block and the next dispatch. */
  lemma ClocksExactly(cfg: Config, row: Row, x: Inputs)
    ensures var row' := Process(cfg, row, x).row;
            var tried := Refusal(row, x) && Retryable(x.ses.code);
            && row'.attempts == row.attempts + (if tried then 1 else 0)
            && row'.blockedSince ==
               (if Wanted(row, x) && Ok(x) then None
                else if row'.status == RenderBlocked && row.blockedSince.None? then Some(x.doneAt)
                else row.blockedSince)
            && row'.dispatchAt ==
               (if row'.status == RenderBlocked then x.doneAt + cfg.renderRetry
                else if tried && row'.status == Queued then x.doneAt + 10 * Pow2(row.attempts + 1) * MINUTE
                else row.dispatchAt)
  {
    WantedExactly(row, x);
    if x.ses.Rejected? { CodesExactly(x.ses.code); }
    if Renders(row, x) && x.ses.Rejected? { RefusedClocks(cfg, row.(blockedSince := None), x); }
  }

  lemma RefusedClocks(cfg: Config, row: Row, x: Inputs)
    requires Renders(row, x) && x.ses.Rejected?
    ensures var row' := Refused(cfg, row, x).row;
            && row'.attempts == row.attempts + (if Retryable(x.ses.code) then 1 else 0)
            && row'.blockedSince == row.blockedSince
            && row'.dispatchAt == (if Retryable(x.ses.code) && row'.status == Queued
                                   then x.doneAt + 10 * Pow2(row.attempts + 1) * MINUTE else row.dispatchAt)
  {
    CodesExactly(x.ses.code);
  }

  /** Why, as the row and its audit entry record it. */
  ghost predicate ReasonGiven(row: Row, x: Inputs, status: Status, reason: Option<Reason>) {
    if status == Sent then reason.None?
    else if status == Suppressed then reason == Some(if x.suppressed then RecipientSuppressed else EmailDisabled)
    else if status == Cancelled then
      if !Found(row, x) then
        reason == Some(EntityGone(if !OfReminder(row) then "work item"
                                  else if row.department.Some? && x.departmentFound then "event_cycle"
                                  else "department"))
      else if !Active(x.catalog, row.event) then reason == Some(TemplateSilent)
      else
        && x.catalog.override.Some? && x.catalog.override.value.windowEnd.Some?
        && reason == Some(WindowClosed(x.catalog.override.value.windowEnd.value))
    else if x.render.RenderBroken? then reason == Some(RenderProblem(x.render.detail))
    else x.ses.Rejected? && reason == Some(SesError(x.ses.error, x.ses.code))
  }

  /** The audit entry: one for an ending or a first block, with the status's own name, the row's
      reason, and the rendered text exactly if the template rendered. */
  lemma EntryExactly(cfg: Config, row: Row, x: Inputs)
    ensures var e := Process(cfg, row, x);
            && ReasonGiven(row, x, e.row.status, e.row.lastError)
            && (match e.row.status
                case Sent => e.entry.Some? && e.entry.value.status == LogSent
                case Suppressed => e.entry.Some? && e.entry.value.status == LogSuppressed
                case Failed => e.entry.Some? && e.entry.value.status == LogFailed
                case Cancelled => e.entry.Some? && e.entry.value.status == LogCancelled
                case RenderBlocked =>
                  if row.blockedSince.None? then e.entry.Some? && e.entry.value.status == LogRenderBlocked
                  else e.entry.None?
                case _ => e.entry.None?)
            && (e.entry.Some? ==>
                  && e.entry.value.error == e.row.lastError
                  && e.entry.value.body == (if Wanted(row, x) && Ok(x) then Some(x.render.content) else None))
  {
    WantedExactly(row, x);
    ReminderKind(row);
    CatalogExactly(x.catalog, row.event);
    if Renders(row, x) && x.ses.Rejected? { RefusedEntry(cfg, row.(blockedSince := None), x); }
  }

  lemma RefusedEntry(cfg: Config, row: Row, x: Inputs)
    requires Renders(row, x) && x.ses.Rejected?
    ensures var e := Refused(cfg, row, x);
            && e.row.lastError == Some(SesError(x.ses.error, x.ses.code)) && e.row.status in {Failed, Queued}
            && (if e.row.status == Failed
                then e.entry == Some(Entry(LogFailed, e.row.lastError, Some(x.render.content)))
                else e.entry.None?)
  {
  }

  /** What process_row hands its caller: an exception exactly for a halt or a throttle, and
      otherwise the status it wrote. */
  lemma OutcomeExactly(cfg: Config, row: Row, x: Inputs)
    ensures var e := Process(cfg, row, x);
            && (e.outcome.RaisedHalt? <==> Refusal(row, x) && HaltCode(x.ses.code))
            && (e.outcome.RaisedThrottle? <==> Refusal(row, x) && ThrottleCode(x.ses.code))
            && (e.outcome.Returned? ==> e.outcome.status == e.row.status)
            && (e.outcome.RaisedThrottle? ==> e.outcome.status == e.row.status)
  {
    WantedExactly(row, x);
    if x.ses.Rejected? { CodesExactly(x.ses.code); }
    if Renders(row, x) && x.ses.Rejected? {
      var e := Refused(cfg, row.(blockedSince := None), x);
      assert e.outcome.RaisedHalt? <==> Classify(x.ses.code) == AccountHalt;
      assert e.outcome.RaisedThrottle? <==> Classify(x.ses.code) == TransientAccount;
    }
  }

  // ------------------------------------------------------------------------ enqueueing

  /** The opening the request's event has. */
  function OpeningOf(q: Request, c: Catalog): Option<Time> {
    if q.event.Some? && c.override.Some? then c.override.value.windowStart else None
  }

  function Asked(q: Request, now: Time): Time { if q.dispatchAt.Some? then q.dispatchAt.value else now }

  ghost predicate KeyTaken(rows: map<RowId, Row>, q: Request) {
    q.dedupKey.Some? && exists id | id in rows :: rows[id].dedupKey == q.dedupKey
  }

  /** Each of the five outcomes, for every table, request and template. */
  lemma EnqueueExactly(rows: map<RowId, Row>, q: Request, c: Catalog, now: Time)
    ensures var v := EnqueueVerdict(rows, q, c, now);
            var open := Active(c, q.event) && !ClosedBy(c, q.event, now);
            var early := OpeningOf(q, c).Some? && Asked(q, now) < OpeningOf(q, c).value;
            && (v == BlockedInactive <==> !Active(c, q.event))
            && (v == BlockedWindow <==> Active(c, q.event) && ClosedBy(c, q.event, now))
            && (v == Duplicate <==> open && KeyTaken(rows, q))
            && (v == Deferred <==> open && !KeyTaken(rows, q) && early)
            && (v == Created <==> open && !KeyTaken(rows, q) && !early)
  {
    CatalogExactly(c, q.event);
  }

  /** And the row: one new row, exactly for CREATED and DEFERRED, carrying what was asked, due at
      the later of the date asked and the opening. */
  lemma QueuedExactly(db: Db, q: Request, c: Catalog, now: Time)
    ensures var v, db' := EnqueueVerdict(db.rows, q, c, now), Enqueue(db, q, c, now);
            if v == Created || v == Deferred then
              && db'.nextRow == db.nextRow + 1 && db.nextRow in db'.rows
              && (forall id | id in db.rows && id != db.nextRow :: id in db'.rows && db'.rows[id] == db.rows[id])
              && (forall id | id in db'.rows :: id in db.rows || id == db.nextRow)
              && var row := db'.rows[db.nextRow];
                 && row.templateKey == q.templateKey && row.recipient == q.recipient && row.workItem == q.workItem
                 && row.event == q.event && row.department == q.department && row.dedupKey == q.dedupKey
                 && row.dispatchAt == (if OpeningOf(q, c).Some? && Asked(q, now) < OpeningOf(q, c).value
                                       then OpeningOf(q, c).value else Asked(q, now))
                 && row.status == Queued && row.claimedAt.None? && row.claimedBy.None? && row.attempts == 0
                 && row.blockedSince.None? && row.lastError.None? && row.sentAt.None? && row.messageId.None?
                 && row.createdAt == now
            else db' == db
  {
    CatalogExactly(c, q.event);
  }
}
