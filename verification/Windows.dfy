/** Counting log rows in sliding windows of time. */
module Windows {
  import opened Basics
  import opened Outbox

  function CountFrom(logs: seq<Log>, p: Log -> bool, since: Time): nat {
    if logs == [] then 0
    else
      var log := logs[|logs| - 1];
      CountFrom(logs[..|logs| - 1], p, since) + if p(log) && log.createdAt >= since then 1 else 0
  }

  /** Rows satisfying p that were created between the two instants, both included. */
  function CountIn(logs: seq<Log>, p: Log -> bool, since: Time, until: Time): nat {
    if logs == [] then 0
    else
      var log := logs[|logs| - 1];
      CountIn(logs[..|logs| - 1], p, since, until) + if p(log) && since <= log.createdAt <= until then 1 else 0
  }

  /** The rows in the closed window of this width that begins at x. */
  function CountWindow(logs: seq<Log>, p: Log -> bool, x: Time, width: Time): nat {
    CountIn(logs, p, x, x + width)
  }

  /** No closed window of this width holds more than `cap` such rows. */
  ghost predicate Capped(logs: seq<Log>, p: Log -> bool, width: Time, cap: int) {
    forall x :: CountWindow(logs, p, x, width) <= cap
  }

  lemma {:induction false} WiderCounts(logs: seq<Log>, p: Log -> bool, q: Log -> bool, since: Time, until: Time,
          earlier: Time)
    requires earlier <= since && forall log :: p(log) ==> q(log)
    ensures CountIn(logs, p, since, until) <= CountFrom(logs, q, earlier)
    ensures CountFrom(logs, p, since) <= CountFrom(logs, q, earlier)
  {
    if logs != [] { WiderCounts(logs[..|logs| - 1], p, q, since, until, earlier); }
  }

  lemma AppendCounts(logs: seq<Log>, log: Log, p: Log -> bool, since: Time, until: Time)
    ensures CountFrom(logs + [log], p, since) ==
            CountFrom(logs, p, since) + if p(log) && log.createdAt >= since then 1 else 0
    ensures CountIn(logs + [log], p, since, until) ==
            CountIn(logs, p, since, until) + if p(log) && since <= log.createdAt <= until then 1 else 0
  {
    assert (logs + [log])[..|logs|] == logs;
  }

  /** A new row keeps the cap when few enough counted rows (by q, which covers p) follow the
      instant one width before it, or before some earlier check. */
  lemma CapKept(logs: seq<Log>, log: Log, p: Log -> bool, q: Log -> bool, width: Time, cap: int, since: Time)
    requires forall l :: p(l) ==> q(l)
    requires Capped(logs, p, width, cap) && since <= log.createdAt - width
    requires p(log) ==> CountFrom(logs, q, since) + 1 <= cap
    ensures Capped(logs + [log], p, width, cap)
  {
    forall x
      ensures CountWindow(logs + [log], p, x, width) <= cap
    {
      assert CountWindow(logs, p, x, width) <= cap;
      AppendCounts(logs, log, p, x, x + width);
      if p(log) && x <= log.createdAt <= x + width {
        WiderCounts(logs, p, q, x, x + width, since);
      }
    }
  }
}
