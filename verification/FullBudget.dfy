/** The bound on the work per row is reached: a row that blocks as often as its block may age,
    before each halt and each attempt, is processed exactly that often. */
module FullBudget {
  import opened Basics
  import opened Templates
  import opened Outbox
  import opened World
  import opened Lease
  import opened Histories
  import opened Scenarios
  import opened Ledgers
  import AtLeastOnce
  import L = RowLife

  /** The history stands at w; its only row has been processed `done` times, with `halts` halts. */
  ghost predicate Stage(cfg: Config, lat: Latency, t0: Time, steps: seq<Step>, w: World, row: Row, done: int,
          halts: nat)
  {
    && Leads(cfg, lat, t0, steps, w) && w.db.rows == map[0 := row]
    && var s := StoryOf(cfg, lat, t0, steps, 0);
       s.Story? && var led := L.LedgerAt(cfg, s.born, s.events); led.processed == done && led.halts == halts
  }

  predicate Plain(row: Row) { row.templateKey == "finalized" && row.workItem == Some(1) && row.event.None? }

  datatype Answer = Breaks | HaltsAll | Refuses

  /** The row's template breaks, SES halts the account, or SES refuses for a passing reason. */
  function Meets(a: Answer, at: Time): Inputs {
    var x := Sends(at);
    match a
    case Breaks => x.(render := RenderBroken("broken"))
    case HaltsAll => x.(ses := Rejected(false, None, Some("AccountSendingPaused")))
    case Refuses => x.(ses := Rejected(false, None, None))
  }

  /** What one processing does to a plain row. */
  lemma MeetsBreaks(cfg: Config, row: Row, at: Time)
    requires Plain(row)
    ensures !Halts(row, Meets(Breaks, at))
    ensures Process(cfg, row, Meets(Breaks, at)) == Blocked(cfg, row, RenderProblem("broken"), at)
  {
  }

  lemma MeetsHalts(cfg: Config, row: Row, at: Time)
    requires Plain(row)
    ensures var row' := Process(cfg, row, Meets(HaltsAll, at)).row;
            && Halts(row, Meets(HaltsAll, at)) && Plain(row') && row'.status == Queued && row'.blockedSince.None?
            && row'.attempts == row.attempts && row'.dispatchAt == row.dispatchAt
  {
    assert Classify(Some("AccountSendingPaused")) == AccountHalt;
  }

  lemma MeetsRefusal(cfg: Config, row: Row, at: Time)
    requires Plain(row)
    ensures var row' := Process(cfg, row, Meets(Refuses, at)).row;
            && !Halts(row, Meets(Refuses, at)) && Plain(row') && row'.blockedSince.None?
            && row'.attempts == row.attempts + 1
            && row'.status == if row.attempts + 1 >= cfg.maxAttempts then Failed else Queued
  {
  }

  /** Wait for the row to be due, claim it, and process it at once. */
  lemma Round(cfg: Config, lat: Latency, t0: Time, steps: seq<Step>, w: World, row: Row, done: nat, halts: nat,
          a: Answer, at: Time)
    returns (steps': seq<Step>, w': World, claimed: Row)
    requires Roomy(cfg, lat) && Stage(cfg, lat, t0, steps, w, row, done, halts) && Plain(row)
    requires at >= w.clock && row.status.Claimable() && row.dispatchAt <= at
    ensures claimed == row.(status := Sending, claimedAt := claimed.claimedAt, claimedBy := claimed.claimedBy)
    ensures Stage(cfg, lat, t0, steps', w', Process(cfg, claimed, Meets(a, at)).row, done + 1,
                  halts + if Halts(claimed, Meets(a, at)) then 1 else 0)
    ensures w'.clock == at
  {
    var s := StoryOf(cfg, lat, t0, steps, 0);
    EveryRowHasItsStory(cfg, lat, t0, steps, 0);
    var run, w1;
    steps', w1, run := Begin(cfg, lat, t0, steps, w, row, s, a, at);
    claimed := Claimed(row, run, at);
    BookedRound(cfg, s, L.Claim(run, at), Meets(a, at), row, claimed);
    s := s.(events := s.events + [L.Claim(run, at)]);
    steps', w' := Commit(cfg, lat, t0, steps', w1, claimed, s, run, Meets(a, at));
  }

  lemma Begin(cfg: Config, lat: Latency, t0: Time, steps: seq<Step>, w: World, row: Row, s: Story, a: Answer, at: Time)
    returns (steps': seq<Step>, w': World, run: RunId)
    requires Roomy(cfg, lat) && Tells(cfg, lat, t0, steps, w, 0, s) && s.Story? && w.db.rows == map[0 := row]
    requires at >= w.clock && row.status.Claimable() && row.dispatchAt <= at
    ensures Tells(cfg, lat, t0, steps', w', 0, s.(events := s.events + [L.Claim(run, at)]))
    ensures w'.clock == at && w'.db.rows == map[0 := Claimed(row, run, at)]
    ensures CanWork(lat, w', run, Meets(a, at)) && InFlight(w'.runs[run]) == 0
  {
    run := AtLeastOnce.FreshRun(w.runs.Keys);
    steps' := Wait(cfg, lat, t0, steps, w, 0, s, at);
    var w1 := w.(clock := at);
    assert Reap(w1.db, at).rows == w1.db.rows;
    var s1;
    steps', s1 := Work(cfg, lat, t0, steps', w1, 0, s, run);
    w' := Working(w1, run, 0);
  }

  /** The claimed row's step, committed. */
  lemma Commit(cfg: Config, lat: Latency, t0: Time, steps: seq<Step>, w: World, row: Row, s: Story, run: RunId,
          x: Inputs)
    returns (steps': seq<Step>, w': World)
    requires Tells(cfg, lat, t0, steps, w, 0, s) && s.Story? && CanWork(lat, w, run, x)
    requires InFlight(w.runs[run]) == 0 && w.db.rows == map[0 := row]
    ensures Tells(cfg, lat, t0, steps', w', 0, s.(events := s.events + [L.Process(x)]))
    ensures w'.clock == w.clock && w'.db.rows == map[0 := Process(cfg, row, x).row]
  {
    steps' := Tell(cfg, lat, t0, steps, w, 0, s, CommitRow(run, x));
    w' := Apply(cfg, lat, w, CommitRow(run, x));
  }

  /** The ledger of a story with one more claim and one more processing. */
  lemma BookedRound(cfg: Config, s: Story, claim: L.Event, x: Inputs, row: Row, claimed: Row)
    requires s.Story? && claim.Claim? && L.RowAt(cfg, s.born, s.events) == row
    requires claimed == Claimed(row, claim.run, claim.now)
    ensures var led := L.LedgerAt(cfg, s.born, s.events);
            var led' := L.LedgerAt(cfg, s.born, (s.events + [claim]) + [L.Process(x)]);
            && led'.processed == led.processed + 1
            && led'.halts == led.halts + if Halts(claimed, x) then 1 else 0
  {
    var one, two := s.events + [claim], (s.events + [claim]) + [L.Process(x)];
    assert one[..|s.events|] == s.events && two[..|one|] == one;
  }

  // ------------------------------------------------------------------------ one cycle

  /** When the k-th block is due, the first of them being due at `from`. */
  function BlockTime(cfg: Config, from: Time, k: nat): Time {
    if k == 0 then from else BlockTime(cfg, from, k - 1) + cfg.renderRetry
  }

  lemma {:induction false} BlockTimeIs(cfg: Config, from: Time, k: nat)
    ensures BlockTime(cfg, from, k) == from + k * cfg.renderRetry
  {
    if k > 0 {
      BlockTimeIs(cfg, from, k - 1);
      assert k * cfg.renderRetry == (k - 1) * cfg.renderRetry + cfg.renderRetry;
    }
  }

  lemma LastBlockYoung(cfg: Config, from: Time, k: nat)
    requires cfg.Positive() && k < CeilDiv(cfg.renderMaxAge, cfg.renderRetry)
    ensures BlockTime(cfg, from, k) - from < cfg.renderMaxAge
  {
    var r, c := cfg.renderRetry, CeilDiv(cfg.renderMaxAge, cfg.renderRetry);
    var top := cfg.renderMaxAge + r - 1;
    BlockTimeIs(cfg, from, k);
    assert top == c * r + top % r;
    L.ProductMonotone(k, c - 1, r);
    assert (c - 1) * r == c * r - r;
  }

  /** The row after k blocks, the first of them at `from`. */
  predicate BlockedFor(cfg: Config, row: Row, attempts: nat, from: Time, k: nat) {
    && Plain(row) && row.attempts == attempts
    && if k == 0 then row.status == Queued && row.blockedSince.None? && row.dispatchAt <= from
       else
         && row.status == RenderBlocked && row.blockedSince == Some(from)
         && row.dispatchAt == BlockTime(cfg, from, k)
  }

  lemma NextBlock(cfg: Config, row: Row, claimed: Row, attempts: nat, from: Time, k: nat)
    requires cfg.Positive() && BlockedFor(cfg, row, attempts, from, k)
    requires k < CeilDiv(cfg.renderMaxAge, cfg.renderRetry)
    requires claimed == row.(status := Sending, claimedAt := claimed.claimedAt, claimedBy := claimed.claimedBy)
    ensures var at := BlockTime(cfg, from, k);
            && !Halts(claimed, Meets(Breaks, at))
            && BlockedFor(cfg, Process(cfg, claimed, Meets(Breaks, at)).row, attempts, from, k + 1)
  {
    LastBlockYoung(cfg, from, k);
    MeetsBreaks(cfg, claimed, BlockTime(cfg, from, k));
  }

  /** The row blocks as often as its block may age. */
  lemma {:induction false} Blocks(cfg: Config, lat: Latency, t0: Time, steps: seq<Step>, w: World, row: Row, done: nat,
          halts: nat, from: Time, k: nat)
    returns (steps': seq<Step>, w': World, row': Row)
    requires Roomy(cfg, lat) && Stage(cfg, lat, t0, steps, w, row, done, halts)
    requires BlockedFor(cfg, row, row.attempts, from, 0) && w.clock <= from
    requires k <= CeilDiv(cfg.renderMaxAge, cfg.renderRetry)
    ensures Stage(cfg, lat, t0, steps', w', row', done + k, halts) && BlockedFor(cfg, row', row.attempts, from, k)
    ensures w'.clock <= BlockTime(cfg, from, k)
  {
    if k == 0 {
      steps', w', row' := steps, w, row;
    } else {
      var w1, row1;
      steps', w1, row1 := Blocks(cfg, lat, t0, steps, w, row, done, halts, from, k - 1);
      steps', w', row' := OneBlock(cfg, lat, t0, steps', w1, row1, done + k - 1, halts, row.attempts, from, k - 1);
    }
  }

  lemma OneBlock(cfg: Config, lat: Latency, t0: Time, steps: seq<Step>, w: World, row: Row, done: nat, halts: nat,
          attempts: nat, from: Time, k: nat)
    returns (steps': seq<Step>, w': World, row': Row)
    requires Roomy(cfg, lat) && Stage(cfg, lat, t0, steps, w, row, done, halts)
    requires BlockedFor(cfg, row, attempts, from, k) && w.clock <= BlockTime(cfg, from, k)
    requires k < CeilDiv(cfg.renderMaxAge, cfg.renderRetry)
    ensures Stage(cfg, lat, t0, steps', w', row', done + 1, halts) && BlockedFor(cfg, row', attempts, from, k + 1)
    ensures w'.clock == BlockTime(cfg, from, k)
  {
    var claimed;
    steps', w', claimed := Round(cfg, lat, t0, steps, w, row, done, halts, Breaks, BlockTime(cfg, from, k));
    NextBlock(cfg, row, claimed, attempts, from, k);
    row' := Process(cfg, claimed, Meets(Breaks, BlockTime(cfg, from, k))).row;
  }

  /** How a halt or a refusal leaves the row. */
  predicate EndsCycle(cfg: Config, row: Row, row': Row, a: Answer) {
    && Plain(row') && row'.blockedSince.None?
    && row'.attempts == row.attempts + (if a == Refuses then 1 else 0)
    && row'.status == if a == Refuses && row.attempts + 1 >= cfg.maxAttempts then Failed else Queued
  }

  lemma MeetsEnd(cfg: Config, row: Row, a: Answer, at: Time)
    requires Plain(row) && a != Breaks
    ensures EndsCycle(cfg, row, Process(cfg, row, Meets(a, at)).row, a) && (Halts(row, Meets(a, at)) <==> a == HaltsAll)
  {
    if a == HaltsAll {
      MeetsHalts(cfg, row, at);
    } else {
      MeetsRefusal(cfg, row, at);
    }
  }

  /** The blocks, and the halt or refusal that ends them. */
  lemma Cycle(cfg: Config, lat: Latency, t0: Time, steps: seq<Step>, w: World, row: Row, done: nat, halts: nat,
          a: Answer)
    returns (steps': seq<Step>, w': World, row': Row)
    requires Roomy(cfg, lat) && Stage(cfg, lat, t0, steps, w, row, done, halts) && a != Breaks
    requires Plain(row) && row.status == Queued && row.blockedSince.None?
    ensures Stage(cfg, lat, t0, steps', w', row', done + L.StepsPerAttempt(cfg), halts + if a == HaltsAll then 1 else 0)
    ensures EndsCycle(cfg, row, row', a)
  {
    var from := if row.dispatchAt > w.clock then row.dispatchAt else w.clock;
    var c := CeilDiv(cfg.renderMaxAge, cfg.renderRetry);
    L.CeilPositive(cfg);
    var w1, row1;
    steps', w1, row1 := Blocks(cfg, lat, t0, steps, w, row, done, halts, from, c);
    steps', w', row' := EndCycle(cfg, lat, t0, steps', w1, row1, done + c, halts, a, BlockTime(cfg, from, c));
  }

  lemma EndCycle(cfg: Config, lat: Latency, t0: Time, steps: seq<Step>, w: World, row: Row, done: nat, halts: nat,
          a: Answer, at: Time)
    returns (steps': seq<Step>, w': World, row': Row)
    requires Roomy(cfg, lat) && Stage(cfg, lat, t0, steps, w, row, done, halts) && a != Breaks
    requires Plain(row) && row.status.Claimable() && row.dispatchAt <= at && w.clock <= at
    ensures Stage(cfg, lat, t0, steps', w', row', done + 1, halts + if a == HaltsAll then 1 else 0)
    ensures EndsCycle(cfg, row, row', a)
  {
    var claimed;
    steps', w', claimed := Round(cfg, lat, t0, steps, w, row, done, halts, a, at);
    row' := Process(cfg, claimed, Meets(a, at)).row;
    MeetsEnd(cfg, claimed, a, at);
  }

  // --------------------------------------------------------------------- the whole life

  /** After n cycles, of which the first h end in a halt. */
  predicate AfterCycles(cfg: Config, row: Row, h: nat, n: nat) {
    && Plain(row) && row.blockedSince.None?
    && row.attempts == (if n <= h then 0 else n - h)
    && row.status == if n == h + cfg.maxAttempts then Failed else Queued
  }

  lemma {:induction false} Cycles(cfg: Config, lat: Latency, t0: Time, h: nat, n: nat)
    returns (steps: seq<Step>, w: World, row: Row)
    requires Roomy(cfg, lat) && n <= h + cfg.maxAttempts
    ensures n * L.StepsPerAttempt(cfg) >= 0
    ensures Stage(cfg, lat, t0, steps, w, row, n * L.StepsPerAttempt(cfg), if n <= h then n else h)
    ensures AfterCycles(cfg, row, h, n)
  {
    L.CeilPositive(cfg);
    if n == 0 {
      steps := Queue(cfg, lat, t0, REQUEST, PLAIN);
      w, row := Fresh(t0, REQUEST, PLAIN), NewRow(REQUEST, PLAIN, t0);
    } else {
      var w1, row1;
      steps, w1, row1 := Cycles(cfg, lat, t0, h, n - 1);
      var k := L.StepsPerAttempt(cfg);
      assert n * k == (n - 1) * k + k;
      steps, w, row := Cycle(cfg, lat, t0, steps, w1, row1, (n - 1) * k, if n - 1 <= h then n - 1 else h,
                             if n <= h then HaltsAll else Refuses);
    }
  }

  /** For every configuration, every latency and every number of halts there is a history in which
      a row is processed exactly as often as the bound allows. */
  lemma BoundReached(cfg: Config, lat: Latency, t0: Time, h: nat) returns (steps: seq<Step>)
    requires Roomy(cfg, lat)
    ensures Valid(cfg, lat, t0, steps) && HaltCount(cfg, lat, t0, steps, 0) == h
    ensures CommitCount(cfg, lat, t0, steps, 0) == L.WorkBound(cfg, h)
  {
    var w, row;
    steps, w, row := Cycles(cfg, lat, t0, h, h + cfg.maxAttempts);
    CountsBooked(cfg, lat, t0, steps, 0);
  }
}
