/** The life of one outbox row: the sequence of things that happen to it between its insert
    and its prune, the history those things leave, and what holds after every such sequence.
    Module World shows that every row of every run lives such a life. */
module RowLife {
  import opened Basics
  import opened Templates
  import opened Outbox

  datatype Event =
    | Claim(run: RunId, now: Time)
    | Reap
    | Release
    | Process(x: Inputs)
    | Withdraw(at: Time)
    | Requeue(at: Time)
    | Detach(workItem: bool, event: bool, department: bool)

  function After(cfg: Config, row: Row, ev: Event): Row {
    match ev
    case Claim(run, now) => Claimed(row, run, now)
    case Reap => Reaped(row)
    case Release => Released(row)
    case Process(x) => Outbox.Process(cfg, row, x).row
    case Withdraw(at) => Withdrawn(row).row
    case Requeue(at) => Requeued(row, at)
    case Detach(w, e, d) => Detached(row, w, e, d)
  }

  /** A claim takes a due row and a row is processed under a claim, so not before it was due. */
  predicate Legal(row: Row, ev: Event) {
    match ev
    case Claim(run, now) => Due(row, now)
    case Reap => row.status == Sending
    case Release => row.status == Sending
    case Process(x) => row.status == Sending && row.dispatchAt <= x.checkedAt <= x.calledAt <= x.doneAt
    case Withdraw(at) => row.status.Claimable()
    case Requeue(at) => row.status.FreesKey()
    case Detach(w, e, d) => true
  }

  /** What holds of every step, timely or not: process_row tests nothing about its row. */
  predicate Lawful(row: Row, ev: Event) { ev.Process? || Legal(row, ev) }

  function RowAt(cfg: Config, born: Row, events: seq<Event>): Row {
    if events == [] then born
    else After(cfg, RowAt(cfg, born, events[..|events| - 1]), events[|events| - 1])
  }

  predicate LegalLife(cfg: Config, born: Row, events: seq<Event>) {
    events != [] ==>
      && LegalLife(cfg, born, events[..|events| - 1])
      && Legal(RowAt(cfg, born, events[..|events| - 1]), events[|events| - 1])
  }

  predicate LawfulLife(cfg: Config, born: Row, events: seq<Event>) {
    events != [] ==>
      && LawfulLife(cfg, born, events[..|events| - 1])
      && Lawful(RowAt(cfg, born, events[..|events| - 1]), events[|events| - 1])
  }

  lemma {:induction false} LegalIsLawful(cfg: Config, born: Row, events: seq<Event>)
    requires LegalLife(cfg, born, events)
    ensures LawfulLife(cfg, born, events)
  {
    if events != [] { LegalIsLawful(cfg, born, events[..|events| - 1]); }
  }

  /** A row as enqueue_email inserts it. */
  predicate Newborn(row: Row) {
    && row.status == Queued && row.claimedAt.None? && row.claimedBy.None? && row.attempts == 0
    && row.blockedSince.None?
  }

  /** The status of one audit entry and whether a body is stored with it. */
  datatype Note = Note(status: LogStatus, body: bool)

  /** What a life leaves behind. The first six count from the insert or the last requeue. */
  datatype Ledger = Ledger(
    processed: nat,
    failures: nat,              // transport failures the drainer retries
    halts: nat,                 // account halts
    reaps: nat,                 // reaps of the row while it carried no block
    firstFailure: Option<Time>,
    rendered: bool,             // the template rendered in the latest step that could end the row
    requeues: nat,
    episodes: nat,              // times the row became blocked
    notes: seq<Note>)

  const BLANK: Ledger := Ledger(0, 0, 0, 0, None, false, 0, 0, [])

  function NotesOf(e: Option<Entry>): seq<Note> {
    if e.Some? then [Note(e.value.status, e.value.body.Some?)] else []
  }

  function Post(cfg: Config, row: Row, led: Ledger, ev: Event): Ledger {
    match ev
    case Claim(_, _) => led
    case Reap => if row.blockedSince.None? then led.(reaps := led.reaps + 1) else led
    case Release => led
    case Process(x) =>
      var failed := FailsTransiently(row, x);
      led.(processed := led.processed + 1,
           failures := led.failures + if failed then 1 else 0,
           halts := led.halts + if Halts(row, x) then 1 else 0,
           firstFailure := if failed && led.firstFailure.None? then Some(x.doneAt) else led.firstFailure,
           rendered := Renders(row, x),
           episodes := led.episodes +
             if row.blockedSince.None? && After(cfg, row, ev).blockedSince.Some? then 1 else 0,
           notes := led.notes + NotesOf(Outbox.Process(cfg, row, x).entry))
    case Withdraw(at) => led.(rendered := false, notes := led.notes + NotesOf(Withdrawn(row).entry))
    case Requeue(at) => BLANK.(requeues := led.requeues + 1, episodes := led.episodes, notes := led.notes)
    case Detach(_, _, _) => led
  }

  function LedgerAt(cfg: Config, born: Row, events: seq<Event>): Ledger {
    if events == [] then BLANK
    else
      var past := events[..|events| - 1];
      Post(cfg, RowAt(cfg, born, past), LedgerAt(cfg, born, past), events[|events| - 1])
  }

  // ------------------------------------------------ coupling of the row's fields

  /** Which fields go with which status. */
  predicate Coupled(row: Row) {
    && (row.status == Queued ==> row.claimedAt.None? && row.claimedBy.None? && row.blockedSince.None?)
    && (row.status == RenderBlocked ==> row.claimedAt.None? && row.claimedBy.None? && row.blockedSince.Some?)
    && (row.status == Sending ==> row.claimedAt.Some? && row.claimedBy.Some?)
  }

  /** Every operation keeps the coupling; processing does so whatever state the row is in. */
  lemma CouplingKept(cfg: Config, row: Row, ev: Event)
    requires Coupled(row) && Lawful(row, ev)
    ensures Coupled(After(cfg, row, ev))
  {
    if ev.Process? {
      ProcessCouples(cfg, row, ev.x);
    }
  }

  lemma ProcessCouples(cfg: Config, row: Row, x: Inputs)
    ensures Coupled(Outbox.Process(cfg, row, x).row)
  {
  }

  // --------------------------------------------------------------- attempt ledger

  /** The sum of the first k retry delays. */
  function Ladder(k: nat): Time { if k == 0 then 0 else Ladder(k - 1) + Backoff(k) }

  lemma {:induction false} LadderClosedForm(k: nat)
    ensures Ladder(k) == 10 * (Pow2(k + 1) - 2) * MINUTE
  {
    if k > 0 { LadderClosedForm(k - 1); }
  }

  /** attempt_count is the transport failures plus the reaps of the unblocked row. */
  predicate AttemptsCounted(row: Row, led: Ledger) {
    row.attempts == led.failures + led.reaps && (led.failures > 0 <==> led.firstFailure.Some?)
  }

  lemma AttemptsCountedStep(cfg: Config, row: Row, led: Ledger, ev: Event)
    requires Lawful(row, ev) && AttemptsCounted(row, led)
    ensures AttemptsCounted(After(cfg, row, ev), Post(cfg, row, led, ev))
  {
    if ev.Process? { AttemptsAfter(cfg, row, ev.x); }
  }

  lemma AttemptsAfter(cfg: Config, row: Row, x: Inputs)
    ensures Outbox.Process(cfg, row, x).row.attempts == row.attempts + if FailsTransiently(row, x) then 1 else 0
  {
    if Renders(row, x) && x.ses.Rejected? {
      assert Refused(cfg, row.(blockedSince := None), x).row.attempts ==
             row.attempts + if Classify(x.ses.code) in {Transient, TransientAccount} then 1 else 0;
    }
  }

  /** Without reaps, a live row waits for the whole ladder up to its last failure. */
  predicate AttemptsBooked(row: Row, led: Ledger) {
    && AttemptsCounted(row, led)
    && (!row.status.Terminal() && led.failures > 0 && led.reaps == 0 ==>
          row.dispatchAt >= led.firstFailure.value + Ladder(led.failures))
  }

  lemma AttemptsStep(cfg: Config, row: Row, led: Ledger, ev: Event)
    requires cfg.Positive() && Legal(row, ev) && AttemptsBooked(row, led)
    ensures AttemptsBooked(After(cfg, row, ev), Post(cfg, row, led, ev))
  {
    if ev.Process? {
      AttemptsProcessed(cfg, row, led, ev.x);
    }
  }

  lemma AttemptsProcessed(cfg: Config, row: Row, led: Ledger, x: Inputs)
    requires cfg.Positive() && Legal(row, Process(x)) && AttemptsBooked(row, led)
    ensures AttemptsBooked(After(cfg, row, Process(x)), Post(cfg, row, led, Process(x)))
  {
    RetryDates(cfg, row, x);
  }

  /** What processing does to the attempt count and the dispatch time. */
  lemma RetryDates(cfg: Config, row: Row, x: Inputs)
    requires cfg.Positive() && row.dispatchAt <= x.checkedAt <= x.calledAt <= x.doneAt
    ensures var row' := Outbox.Process(cfg, row, x).row;
            && row'.attempts == row.attempts + (if FailsTransiently(row, x) then 1 else 0)
            && row'.dispatchAt >= row.dispatchAt
            && (FailsTransiently(row, x) && !row'.status.Terminal() ==>
                  row'.dispatchAt == x.doneAt + Backoff(row'.attempts))
  {
    if Renders(row, x) && x.ses.Rejected? {
      RefusalDates(cfg, row.(blockedSince := None), x);
    }
  }

  lemma RefusalDates(cfg: Config, row: Row, x: Inputs)
    requires Renders(row, x) && x.ses.Rejected? && row.dispatchAt <= x.doneAt
    ensures var row' := Refused(cfg, row, x).row;
            var counts := Classify(x.ses.code) in {Transient, TransientAccount};
            && row'.attempts == row.attempts + (if counts then 1 else 0)
            && row'.dispatchAt >= row.dispatchAt
            && (counts && !row'.status.Terminal() ==> row'.dispatchAt == x.doneAt + Backoff(row'.attempts))
  {
  }

  // ---------------------------------------------------------------- bounded work

  /** Processing steps one attempt can take: its blocked retries, and the step that ends them. */
  function StepsPerAttempt(cfg: Config): int
    requires cfg.Positive()
  {
    CeilDiv(cfg.renderMaxAge, cfg.renderRetry) + 1
  }

  function WorkBound(cfg: Config, halts: nat): int
    requires cfg.Positive()
  {
    (cfg.maxAttempts + halts) * StepsPerAttempt(cfg)
  }

  /** How many retry delays fit between the start of the row's block and its next dispatch. */
  function BlockedSteps(cfg: Config, row: Row): int
    requires cfg.Positive()
  {
    if row.blockedSince.Some? then (row.dispatchAt - row.blockedSince.value) / cfg.renderRetry else 0
  }

  predicate WorkBooked(cfg: Config, row: Row, led: Ledger)
    requires cfg.Positive()
  {
    if row.status.Terminal() then led.processed <= WorkBound(cfg, led.halts)
    else
      && led.failures < cfg.maxAttempts
      && BlockedSteps(cfg, row) < StepsPerAttempt(cfg)
      && led.processed <= (led.failures + led.halts) * StepsPerAttempt(cfg) + BlockedSteps(cfg, row)
  }

  /** A row processed once more while live stays within the budget of one more attempt. */
  lemma SpendAttempt(cfg: Config, row: Row, led: Ledger)
    requires cfg.Positive() && WorkBooked(cfg, row, led) && !row.status.Terminal()
    ensures led.processed + 1 <= (led.failures + led.halts + 1) * StepsPerAttempt(cfg)
    ensures led.processed + 1 <= WorkBound(cfg, led.halts)
  {
    var k := StepsPerAttempt(cfg);
    var used := led.failures + led.halts;
    assert (used + 1) * k == used * k + k;
    CeilPositive(cfg);
    ProductMonotone(used + 1, cfg.maxAttempts + led.halts, k);
  }

  lemma CeilPositive(cfg: Config)
    requires cfg.Positive()
    ensures CeilDiv(cfg.renderMaxAge, cfg.renderRetry) >= 1
  {
    QuotientMonotone(cfg.renderRetry, cfg.renderMaxAge + cfg.renderRetry - 1, cfg.renderRetry);
    QuotientIs(cfg.renderRetry, cfg.renderRetry, 1, 0);
  }

  lemma ProductMonotone(a: int, b: int, k: int)
    requires a <= b && k >= 0
    ensures a * k <= b * k
  {
    assert (b - a) * k >= 0;
    assert b * k - a * k == (b - a) * k;
  }

  /** A further block is at least one retry delay later, and still younger than the age limit. */
  lemma BlockedStepsGrow(cfg: Config, row: Row, at: Time)
    requires cfg.Positive() && row.blockedSince.Some? && row.dispatchAt <= at
    requires at - row.blockedSince.value < cfg.renderMaxAge
    ensures BlockedSteps(cfg, row) + 1 <= (at + cfg.renderRetry - row.blockedSince.value) / cfg.renderRetry
            < StepsPerAttempt(cfg)
  {
    var age := at - row.blockedSince.value;
    QuotientStep(age, cfg.renderRetry);
    QuotientMonotone(row.dispatchAt - row.blockedSince.value, age, cfg.renderRetry);
    QuotientMonotone(age + cfg.renderRetry, cfg.renderMaxAge + cfg.renderRetry - 1, cfg.renderRetry);
  }

  /** The four ways a processed row can come out. */
  lemma ProcessCases(cfg: Config, row: Row, x: Inputs)
    ensures var row' := Outbox.Process(cfg, row, x).row;
            || (row'.status.Terminal() && !Halts(row, x))
            || (&& row'.status == RenderBlocked && !Halts(row, x) && !FailsTransiently(row, x)
                && row'.dispatchAt == x.doneAt + cfg.renderRetry
                && row'.blockedSince == Some(if row.blockedSince.Some? then row.blockedSince.value else x.doneAt)
                && x.doneAt - row'.blockedSince.value < (if row.blockedSince.Some? then cfg.renderMaxAge else 1))
            || (row'.status == Queued && row'.blockedSince.None? && Halts(row, x) && !FailsTransiently(row, x))
            || (&& row'.status == Queued && row'.blockedSince.None? && FailsTransiently(row, x) && !Halts(row, x)
                && row'.attempts == row.attempts + 1 < cfg.maxAttempts)
  {
  }

  /** The arithmetic of one processing step, apart from what the step does. */
  lemma WorkCarried(cfg: Config, row: Row, led: Ledger, row': Row, led': Ledger)
    requires cfg.Positive() && WorkBooked(cfg, row, led) && !row.status.Terminal()
    requires led'.processed == led.processed + 1
    requires || (row'.status.Terminal() && led'.halts == led.halts)
             || (&& !row'.status.Terminal() && row'.blockedSince.None? && led'.failures < cfg.maxAttempts
                 && led'.failures + led'.halts == led.failures + led.halts + 1)
             || (&& !row'.status.Terminal() && led'.failures == led.failures && led'.halts == led.halts
                 && BlockedSteps(cfg, row) + 1 <= BlockedSteps(cfg, row') < StepsPerAttempt(cfg))
    ensures WorkBooked(cfg, row', led')
  {
    SpendAttempt(cfg, row, led);
    CeilPositive(cfg);
  }

  lemma WorkProcessed(cfg: Config, row: Row, led: Ledger, x: Inputs)
    requires cfg.Positive() && Legal(row, Process(x)) && AttemptsBooked(row, led) && WorkBooked(cfg, row, led)
    ensures WorkBooked(cfg, After(cfg, row, Process(x)), Post(cfg, row, led, Process(x)))
  {
    var row', led' := After(cfg, row, Process(x)), Post(cfg, row, led, Process(x));
    ProcessCases(cfg, row, x);
    if row'.status == RenderBlocked {
      CeilPositive(cfg);
      if row.blockedSince.Some? {
        BlockedStepsGrow(cfg, row, x.doneAt);
      } else {
        QuotientIs(cfg.renderRetry, cfg.renderRetry, 1, 0);
      }
    }
    WorkCarried(cfg, row, led, row', led');
  }

  lemma WorkStep(cfg: Config, row: Row, led: Ledger, ev: Event)
    requires cfg.Positive() && Legal(row, ev) && AttemptsBooked(row, led) && WorkBooked(cfg, row, led)
    ensures WorkBooked(cfg, After(cfg, row, ev), Post(cfg, row, led, ev))
  {
    match ev {
      case Claim(_, _) =>
      case Reap =>
      case Release =>
      case Detach(_, _, _) =>
      case Withdraw(_) => SpendAttempt(cfg, row, led);
      case Requeue(_) => CeilPositive(cfg);
      case Process(x) => WorkProcessed(cfg, row, led, x);
    }
  }

  // ----------------------------------------------------------------- audit ledger

  function Tally(notes: seq<Note>, status: LogStatus): nat {
    if notes == [] then 0
    else Tally(notes[..|notes| - 1], status) + if notes[|notes| - 1].status == status then 1 else 0
  }

  /** Entries that record how the row ended. */
  function Endings(notes: seq<Note>): nat {
    Tally(notes, LogSent) + Tally(notes, LogSuppressed) + Tally(notes, LogFailed) + Tally(notes, LogCancelled)
  }

  /** One RENDER_BLOCKED entry per block episode, and the last entry of an ended row is its
      ending, with a body exactly if the template rendered in the step that ended it. */
  predicate TrailKept(row: Row, led: Ledger) {
    && Tally(led.notes, LogRenderBlocked) == led.episodes
    && (row.status.Terminal() ==>
          && led.notes != []
          && led.notes[|led.notes| - 1] == Note(LogStatusOf(row.status), led.rendered))
  }

  /** And one ending per time the row ended. */
  predicate Audited(row: Row, led: Ledger) {
    && TrailKept(row, led)
    && Endings(led.notes) == led.requeues + (if row.status.Terminal() then 1 else 0)
  }

  lemma TallyAppend(notes: seq<Note>, n: Note, status: LogStatus)
    ensures Tally(notes + [n], status) == Tally(notes, status) + if n.status == status then 1 else 0
  {
    assert (notes + [n])[..|notes|] == notes;
  }

  /** What one step may write to the audit trail: an ending if it leaves the row ended, a block
      entry if the row becomes blocked, nothing otherwise. */
  predicate WritesNote(row: Row, led: Ledger, row': Row, led': Ledger) {
    if led'.notes == led.notes then
      && led'.episodes == led.episodes
      && (row'.status.Terminal() ==> row'.status == row.status && led'.rendered == led.rendered)
    else if row'.status.Terminal() then
      led'.notes == led.notes + [Note(LogStatusOf(row'.status), led'.rendered)] && led'.episodes == led.episodes
    else
      led'.notes == led.notes + [Note(LogRenderBlocked, false)] && led'.episodes == led.episodes + 1
  }

  lemma StepWritesNote(cfg: Config, row: Row, led: Ledger, ev: Event)
    requires Lawful(row, ev)
    ensures WritesNote(row, led, After(cfg, row, ev), Post(cfg, row, led, ev))
  {
    if ev.Process? { ProcessNotes(cfg, row, ev.x); }
  }

  lemma ProcessNotes(cfg: Config, row: Row, x: Inputs)
    ensures var e := Outbox.Process(cfg, row, x);
            NotesOf(e.entry) ==
            if e.row.status.Terminal() then [Note(LogStatusOf(e.row.status), Renders(row, x))]
            else if row.blockedSince.None? && e.row.blockedSince.Some? then [Note(LogRenderBlocked, false)]
            else []
    ensures var e := Outbox.Process(cfg, row, x);
            e.row.status.Terminal() && e.row.blockedSince.Some? ==> row.blockedSince.Some?
  {
  }

  lemma TrailStep(cfg: Config, row: Row, led: Ledger, ev: Event)
    requires Lawful(row, ev) && TrailKept(row, led)
    ensures TrailKept(After(cfg, row, ev), Post(cfg, row, led, ev))
  {
    StepWritesNote(cfg, row, led, ev);
    TrailCarried(row, led, After(cfg, row, ev), Post(cfg, row, led, ev));
  }

  lemma TrailCarried(row: Row, led: Ledger, row': Row, led': Ledger)
    requires TrailKept(row, led) && WritesNote(row, led, row', led')
    ensures TrailKept(row', led')
  {
    if led'.notes != led.notes { TallyAppend(led.notes, led'.notes[|led'.notes| - 1], LogRenderBlocked); }
  }

  /** A legal step ends only rows that have not ended, and only a requeue revives one. */
  predicate EndsOnce(row: Row, led: Ledger, row': Row, led': Ledger) {
    if led'.notes == led.notes || !row'.status.Terminal() then
      led'.requeues == led.requeues + (if row.status.Terminal() && !row'.status.Terminal() then 1 else 0)
    else
      led'.requeues == led.requeues && !row.status.Terminal()
  }

  lemma StepEndsOnce(cfg: Config, row: Row, led: Ledger, ev: Event)
    requires Legal(row, ev)
    ensures EndsOnce(row, led, After(cfg, row, ev), Post(cfg, row, led, ev))
  {
  }

  lemma AuditedStep(cfg: Config, row: Row, led: Ledger, ev: Event)
    requires Legal(row, ev) && Audited(row, led)
    ensures Audited(After(cfg, row, ev), Post(cfg, row, led, ev))
  {
    StepWritesNote(cfg, row, led, ev);
    StepEndsOnce(cfg, row, led, ev);
    TrailStep(cfg, row, led, ev);
    EndingsCarried(row, led, After(cfg, row, ev), Post(cfg, row, led, ev));
  }

  lemma EndingsCarried(row: Row, led: Ledger, row': Row, led': Ledger)
    requires Audited(row, led) && WritesNote(row, led, row', led') && EndsOnce(row, led, row', led')
    ensures Endings(led'.notes) == led'.requeues + (if row'.status.Terminal() then 1 else 0)
  {
    if led'.notes != led.notes {
      var n := led'.notes[|led'.notes| - 1];
      TallyAppend(led.notes, n, LogSent);
      TallyAppend(led.notes, n, LogSuppressed);
      TallyAppend(led.notes, n, LogFailed);
      TallyAppend(led.notes, n, LogCancelled);
    }
  }

  // ------------------------------------------------------------------- dedup key

  /** A row keeps the key it was created with until it first fails or is cancelled; a requeue
      does not give it back. */
  predicate KeyKept(born: Row, row: Row, led: Ledger) {
    row.dedupKey == if row.status.FreesKey() || led.requeues > 0 then None else born.dedupKey
  }

  lemma KeyStep(cfg: Config, born: Row, row: Row, led: Ledger, ev: Event)
    requires Legal(row, ev) && KeyKept(born, row, led)
    ensures KeyKept(born, After(cfg, row, ev), Post(cfg, row, led, ev))
  {
    if ev.Process? {
      KeyProcessed(cfg, row, ev.x);
    }
  }

  lemma KeyProcessed(cfg: Config, row: Row, x: Inputs)
    ensures var row' := Outbox.Process(cfg, row, x).row;
            row'.dedupKey == if row'.status.FreesKey() then None else row.dedupKey
  {
    if Renders(row, x) && x.ses.Rejected? {
      assert var r := Refused(cfg, row.(blockedSince := None), x).row;
             r.dedupKey == if r.status.FreesKey() then None else row.dedupKey;
    }
  }

  // ------------------------------------------------------------- whole-life lemma

  /** What every life keeps, whatever state its row was processed in. */
  lemma {:induction false} LifeCounts(cfg: Config, born: Row, events: seq<Event>)
    requires Newborn(born) && LawfulLife(cfg, born, events)
    ensures Coupled(RowAt(cfg, born, events))
    ensures AttemptsCounted(RowAt(cfg, born, events), LedgerAt(cfg, born, events))
    ensures TrailKept(RowAt(cfg, born, events), LedgerAt(cfg, born, events))
  {
    if events != [] {
      var past, ev := events[..|events| - 1], events[|events| - 1];
      LifeCounts(cfg, born, past);
      var row, led := RowAt(cfg, born, past), LedgerAt(cfg, born, past);
      CouplingKept(cfg, row, ev);
      AttemptsCountedStep(cfg, row, led, ev);
      TrailStep(cfg, row, led, ev);
    }
  }

  /** What a life keeps besides when its row is processed only under a claim. */
  lemma {:induction false} LifeKeeps(cfg: Config, born: Row, events: seq<Event>)
    requires cfg.Positive() && Newborn(born) && LegalLife(cfg, born, events)
    ensures AttemptsBooked(RowAt(cfg, born, events), LedgerAt(cfg, born, events))
    ensures WorkBooked(cfg, RowAt(cfg, born, events), LedgerAt(cfg, born, events))
    ensures Audited(RowAt(cfg, born, events), LedgerAt(cfg, born, events))
    ensures KeyKept(born, RowAt(cfg, born, events), LedgerAt(cfg, born, events))
  {
    if events == [] {
      CeilPositive(cfg);
    } else {
      var past, ev := events[..|events| - 1], events[|events| - 1];
      LifeKeeps(cfg, born, past);
      var row, led := RowAt(cfg, born, past), LedgerAt(cfg, born, past);
      AttemptsStep(cfg, row, led, ev);
      WorkStep(cfg, row, led, ev);
      AuditedStep(cfg, row, led, ev);
      KeyStep(cfg, born, row, led, ev);
    }
  }

  lemma LifeIsBounded(cfg: Config, born: Row, events: seq<Event>)
    requires cfg.Positive() && Newborn(born) && LegalLife(cfg, born, events)
    ensures var led := LedgerAt(cfg, born, events);
            && led.processed <= WorkBound(cfg, led.halts)
            && (led.processed == WorkBound(cfg, led.halts) ==> RowAt(cfg, born, events).status.Terminal())
  {
    LifeKeeps(cfg, born, events);
    var row := RowAt(cfg, born, events);
    if !row.status.Terminal() { SpendAttempt(cfg, row, LedgerAt(cfg, born, events)); }
  }

  lemma LifeWaits(cfg: Config, born: Row, events: seq<Event>)
    requires cfg.Positive() && Newborn(born) && LegalLife(cfg, born, events)
    ensures RetryWaits(cfg, RowAt(cfg, born, events), LedgerAt(cfg, born, events))
  {
    LifeKeeps(cfg, born, events);
    WaitExplained(cfg, RowAt(cfg, born, events), LedgerAt(cfg, born, events));
  }

  lemma WaitExplained(cfg: Config, row: Row, led: Ledger)
    requires AttemptsBooked(row, led) && (!row.status.Terminal() ==> led.failures < cfg.maxAttempts)
    ensures RetryWaits(cfg, row, led)
  {
    LadderClosedForm(led.failures);
  }

  /** Without reaps a live row has attempts left, and its retry after the k-th failure waits for
      the whole ladder up to k. */
  predicate RetryWaits(cfg: Config, row: Row, led: Ledger) {
    !row.status.Terminal() && led.failures > 0 && led.reaps == 0 && led.firstFailure.Some? ==>
      && row.attempts < cfg.maxAttempts
      && row.dispatchAt >= led.firstFailure.value + 10 * (Pow2(row.attempts + 1) - 2) * MINUTE
  }

  lemma WorkBoundPositive(cfg: Config, halts: nat)
    requires cfg.Positive()
    ensures WorkBound(cfg, halts) >= 0
  {
    CeilPositive(cfg);
    ProductMonotone(0, cfg.maxAttempts + halts, StepsPerAttempt(cfg));
  }

  // ---------------------------------------------------------------- send windows

  /** The window an override puts on rows of its event. */
  function OpensAt(o: Option<Override>, event: Option<int>): Option<Time> {
    if event.Some? && o.Some? then o.value.windowStart else None
  }

  function ClosesAt(o: Option<Override>, event: Option<int>): Option<Time> {
    if event.Some? && o.Some? then o.value.windowEnd else None
  }

  /** The event leaves the row's event and its override alone, and is no requeue before `earliest`. */
  predicate SteadyEvent(ev: Event, o: Option<Override>, earliest: Option<Time>) {
    match ev
    case Process(x) => x.catalog.override == o
    case Requeue(at) => earliest.Some? ==> at >= earliest.value
    case Detach(_, e, _) => !e
    case _ => true
  }

  predicate Steady(events: seq<Event>, o: Option<Override>, earliest: Option<Time>) {
    forall ev | ev in events :: SteadyEvent(ev, o, earliest)
  }

  /** Apart from the operator's requeue, an event leaves the dispatch time or moves it past the
      end of the processing step. */
  lemma DispatchMoves(cfg: Config, row: Row, ev: Event)
    requires cfg.Positive() && !ev.Requeue?
    ensures || After(cfg, row, ev).dispatchAt == row.dispatchAt
            || (ev.Process? && After(cfg, row, ev).dispatchAt >= ev.x.doneAt)
  {
    if ev.Process? { ProcessedDispatch(cfg, row, ev.x); }
  }

  lemma ProcessedDispatch(cfg: Config, row: Row, x: Inputs)
    requires cfg.Positive()
    ensures var row' := Outbox.Process(cfg, row, x).row;
            row'.dispatchAt == row.dispatchAt || row'.dispatchAt >= x.doneAt
  {
    if Renders(row, x) && x.ses.Rejected? {
      assert var r := Refused(cfg, row.(blockedSince := None), x).row;
             r.dispatchAt == row.dispatchAt || r.dispatchAt >= x.doneAt;
    }
  }

  /** So only the operator's requeue can move a dispatch time earlier. */
  lemma DispatchNeverEarlier(cfg: Config, row: Row, ev: Event)
    requires cfg.Positive() && Legal(row, ev) && !ev.Requeue?
    ensures After(cfg, row, ev).dispatchAt >= row.dispatchAt
  {
    DispatchMoves(cfg, row, ev);
  }

  lemma StayedOnEvent(cfg: Config, row: Row, ev: Event)
    requires ev.Detach? ==> !ev.event
    ensures After(cfg, row, ev).event == row.event
  {
    if ev.Process? { ProcessedEvent(cfg, row, ev.x); }
  }

  lemma ProcessedEvent(cfg: Config, row: Row, x: Inputs)
    ensures Outbox.Process(cfg, row, x).row.event == row.event
  {
  }
}
