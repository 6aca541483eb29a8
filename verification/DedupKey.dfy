/** build_dedup_key of app/services/email_enqueue.py, and what its strings tell apart. */
module DedupKey {
  import opened Basics

  datatype DateTime = DateTime(year: nat, month: nat, day: nat, hour: nat, minute: nat, second: nat, micro: nat) {
    /** The ranges of a naive datetime. */
    predicate Proper() {
      1 <= year < 10000 && month < 100 && day < 100 && hour < 100 && minute < 100 && second < 100 && micro < 1_000_000
    }
  }

  datatype Args = Args(
    kind: string,
    workItem: Option<int>,
    event: Option<int>,
    department: Option<int>,
    recipient: string,
    now: DateTime,
    stamp: Option<DateTime>)

  // ------------------------------------------------------------------------- text

  function Digit(d: nat): char
    requires d < 10
  {
    "0123456789"[d]
  }

  /** The last `width` decimal digits of n, padded with zeros. */
  function Padded(n: nat, width: nat): (s: string)
    ensures |s| == width
  {
    if width == 0 then "" else Padded(n / 10, width - 1) + [Digit(n % 10)]
  }

  /** n in decimal, without padding, as strftime renders the year. */
  function Decimal(n: nat): (s: string)
    ensures s != ""
  {
    if n < 10 then [Digit(n)] else Decimal(n / 10) + [Digit(n % 10)]
  }

  function IntText(n: int): string { if n < 0 then "-" + Decimal(-n) else Decimal(n) }

  function IdText(id: Option<int>): string { if id.Some? then IntText(id.value) else "None" }

  function MonthDayText(t: DateTime): (s: string)
    ensures |s| == 6
  {
    "-" + Padded(t.month, 2) + "-" + Padded(t.day, 2)
  }

  function DayText(t: DateTime): string { Decimal(t.year) + MonthDayText(t) }

  function HourText(t: DateTime): string { DayText(t) + ("-" + Padded(t.hour, 2)) }

  /** isoformat: the fraction appears only when there is one. */
  function IsoText(t: DateTime): string {
    Padded(t.year, 4) + "-" + Padded(t.month, 2) + "-" + Padded(t.day, 2) + "T" +
    Padded(t.hour, 2) + ":" + Padded(t.minute, 2) + ":" + Padded(t.second, 2) +
    if t.micro == 0 then "" else "." + Padded(t.micro, 6)
  }

  function StampText(stamp: Option<DateTime>): string { if stamp.Some? then IsoText(stamp.value) else "none" }

  predicate Daily(kind: string) { kind == "submission_reminder" }

  predicate OncePerEvent(kind: string) { kind in {"submission_confirmation", "finalized", "submitted", "sent_back"} }

  function BuildKey(a: Args): string {
    if Daily(a.kind) then
      a.kind + ":" + (IdText(a.event) + ":" + (IdText(a.department) + ":" + (a.recipient + ":" + DayText(a.now))))
    else if OncePerEvent(a.kind) then
      a.kind + ":" + (IdText(a.workItem) + ":" + (a.recipient + ":" + StampText(a.stamp)))
    else
      a.kind + ":" + (IdText(a.workItem) + ":" + (a.recipient + ":" + HourText(a.now)))
  }

  // ---------------------------------------------------- what a key is meant to identify

  predicate SameDay(a: DateTime, b: DateTime) { a.year == b.year && a.month == b.month && a.day == b.day }

  /** The ids the kind uses. */
  predicate SameIds(a: Args, b: Args) {
    if Daily(a.kind) then a.event == b.event && a.department == b.department else a.workItem == b.workItem
  }

  /** The UTC day of a reminder, the stamp of a once-per-event kind, the UTC hour of any other. */
  predicate SameOccasion(a: Args, b: Args) {
    if Daily(a.kind) then SameDay(a.now, b.now)
    else if OncePerEvent(a.kind) then a.stamp == b.stamp
    else SameDay(a.now, b.now) && a.now.hour == b.now.hour
  }

  predicate Usable(a: Args) {
    ':' !in a.kind && a.now.Proper() && (a.stamp.Some? ==> a.stamp.value.Proper())
  }

  // --------------------------------------------------------------- reading text back

  lemma DigitsDiffer(a: nat, b: nat)
    requires a < 10 && b < 10 && Digit(a) == Digit(b)
    ensures a == b
  {
  }

  lemma SameTail(x: string, a: char, y: string, b: char)
    requires x + [a] == y + [b]
    ensures x == y && a == b
  {
    assert |x| == |y|;
    assert x == (x + [a])[..|x|] && y == (y + [b])[..|y|];
    assert a == (x + [a])[|x|];
  }

  function Pow10(n: nat): nat { if n == 0 then 1 else 10 * Pow10(n - 1) }

  lemma {:induction false} PaddedInjective(a: nat, b: nat, width: nat)
    requires a < Pow10(width) && b < Pow10(width) && Padded(a, width) == Padded(b, width)
    ensures a == b
  {
    if width > 0 {
      SameTail(Padded(a / 10, width - 1), Digit(a % 10), Padded(b / 10, width - 1), Digit(b % 10));
      DigitsDiffer(a % 10, b % 10);
      PaddedInjective(a / 10, b / 10, width - 1);
    }
  }

  lemma {:induction false} DecimalInjective(a: nat, b: nat)
    requires Decimal(a) == Decimal(b)
    ensures a == b
  {
    var x, y := if a < 10 then "" else Decimal(a / 10), if b < 10 then "" else Decimal(b / 10);
    SameTail(x, Digit(a % 10), y, Digit(b % 10));
    DigitsDiffer(a % 10, b % 10);
    if a >= 10 && b >= 10 { DecimalInjective(a / 10, b / 10); }
  }

  lemma {:induction false} DecimalDigits(n: nat)
    ensures forall c | c in Decimal(n) :: IsDigit(c)
  {
    if n >= 10 { DecimalDigits(n / 10); }
  }

  lemma {:induction false} PaddedDigits(n: nat, width: nat)
    ensures forall c | c in Padded(n, width) :: IsDigit(c)
  {
    if width > 0 { PaddedDigits(n / 10, width - 1); }
  }

  lemma NumberHasNoColon(n: int)
    ensures ':' !in IntText(n)
  {
    DecimalDigits(if n < 0 then -n else n);
  }

  lemma IntTextInjective(m: int, n: int)
    requires IntText(m) == IntText(n)
    ensures m == n
  {
    DecimalDigits(if m < 0 then -m else m);
    DecimalDigits(if n < 0 then -n else n);
    var s := IntText(m);
    assert s[0] == IntText(n)[0] && s[0] in s;
    if m < 0 {
      assert s[1..] == Decimal(-m) && IntText(n)[1..] == Decimal(-n);
      DecimalInjective(-m, -n);
    } else {
      DecimalInjective(m, n);
    }
  }

  /** "None" is no number. */
  lemma NoneIsNoNumber(n: int)
    ensures IntText(n) != "None"
  {
    DecimalDigits(if n < 0 then -n else n);
    var s := IntText(n);
    assert s[0] in s && "None"[0] == 'N';
  }

  lemma IdTextInjective(a: Option<int>, b: Option<int>)
    ensures ':' !in IdText(a)
    ensures IdText(a) == IdText(b) <==> a == b
  {
    if a.Some? {
      NumberHasNoColon(a.value);
      NoneIsNoNumber(a.value);
    }
    if b.Some? { NoneIsNoNumber(b.value); }
    if a.Some? && b.Some? && IntText(a.value) == IntText(b.value) { IntTextInjective(a.value, b.value); }
  }

  /** Strings split at their first colon in one way. */
  lemma FirstColon(a: string, x: string, b: string, y: string)
    requires ':' !in a && ':' !in b && a + ":" + x == b + ":" + y
    ensures a == b && x == y
  {
    var s := a + ":" + x;
    assert forall i | 0 <= i < |a| :: s[i] == a[i] && a[i] in a;
    assert forall i | 0 <= i < |b| :: s[i] == b[i] && b[i] in b;
    assert s[|a|] == ':' && s[|b|] == ':';
    assert a == s[..|a|] && b == s[..|b|];
    assert x == s[|a| + 1..] && y == s[|b| + 1..];
  }

  /** And at their last colon. */
  lemma LastColon(x: string, a: string, y: string, b: string)
    requires ':' !in a && ':' !in b && x + ":" + a == y + ":" + b
    ensures x == y && a == b
  {
    var s := x + ":" + a;
    assert forall i | |x| < i < |s| :: s[i] == a[i - |x| - 1] && a[i - |x| - 1] in a;
    assert forall i | |y| < i < |s| :: s[i] == b[i - |y| - 1] && b[i - |y| - 1] in b;
    assert s[|x|] == ':' && s[|y|] == ':';
    assert x + (":" + a) == s && y + (":" + b) == s;
    SplitAt(x, ":" + a, y, ":" + b);
    assert a == (":" + a)[1..] && b == (":" + b)[1..];
  }

  /** Concatenations of equally long parts have equal parts. */
  lemma SplitAt(x: string, a: string, y: string, b: string)
    requires x + a == y + b && (|x| == |y| || |a| == |b|)
    ensures x == y && a == b
  {
    var s := x + a;
    assert |x| == |y|;
    assert x == s[..|x|] && y == s[..|x|];
    assert a == s[|x|..] && b == s[|x|..];
  }

  lemma DayTextReads(a: DateTime, b: DateTime)
    requires a.Proper() && b.Proper()
    ensures ':' !in DayText(a)
    ensures DayText(a) == DayText(b) <==> SameDay(a, b)
  {
    DecimalDigits(a.year);
    PaddedDigits(a.month, 2);
    PaddedDigits(a.day, 2);
    if DayText(a) == DayText(b) {
      SplitAt(Decimal(a.year), MonthDayText(a), Decimal(b.year), MonthDayText(b));
      var s := MonthDayText(a);
      assert s[1..3] == Padded(a.month, 2) == Padded(b.month, 2);
      assert s[4..6] == Padded(a.day, 2) == Padded(b.day, 2);
      DecimalInjective(a.year, b.year);
      TwoDigits(a.month, b.month);
      TwoDigits(a.day, b.day);
    }
  }

  lemma TwoDigits(a: nat, b: nat)
    requires a < 100 && b < 100 && Padded(a, 2) == Padded(b, 2)
    ensures a == b
  {
    assert Pow10(1) == 10 && Pow10(2) == 100;
    PaddedInjective(a, b, 2);
  }

  lemma HourTextReads(a: DateTime, b: DateTime)
    requires a.Proper() && b.Proper()
    ensures ':' !in HourText(a)
    ensures HourText(a) == HourText(b) <==> SameDay(a, b) && a.hour == b.hour
  {
    DayTextReads(a, b);
    PaddedDigits(a.hour, 2);
    if HourText(a) == HourText(b) {
      SplitAt(DayText(a), "-" + Padded(a.hour, 2), DayText(b), "-" + Padded(b.hour, 2));
      assert ("-" + Padded(a.hour, 2))[1..] == Padded(a.hour, 2) && ("-" + Padded(b.hour, 2))[1..] == Padded(b.hour, 2);
      TwoDigits(a.hour, b.hour);
    }
  }

  /** Where each part of a stamp stands in its text. */
  predicate Spells(s: string, t: DateTime) {
    && |s| == (if t.micro == 0 then 19 else 26)
    && s[..4] == Padded(t.year, 4) && s[5..7] == Padded(t.month, 2) && s[8..10] == Padded(t.day, 2)
    && s[11..13] == Padded(t.hour, 2) && s[14..16] == Padded(t.minute, 2) && s[17..19] == Padded(t.second, 2)
    && (t.micro != 0 ==> s[19] == '.' && s[20..26] == Padded(t.micro, 6))
  }

  lemma IsoTextSpells(t: DateTime)
    ensures Spells(IsoText(t), t)
  {
    var s := IsoText(t);
    assert s[..4] == Padded(t.year, 4);
    assert s[5..7] == Padded(t.month, 2);
    assert s[8..10] == Padded(t.day, 2);
    assert s[11..13] == Padded(t.hour, 2);
    assert s[14..16] == Padded(t.minute, 2);
    assert s[17..19] == Padded(t.second, 2);
    if t.micro != 0 { assert s[20..26] == Padded(t.micro, 6); }
  }

  lemma SpelledOnce(s: string, a: DateTime, b: DateTime)
    requires a.Proper() && b.Proper() && Spells(s, a) && Spells(s, b)
    ensures a == b
  {
    TwoDigits(a.month, b.month);
    TwoDigits(a.day, b.day);
    TwoDigits(a.hour, b.hour);
    TwoDigits(a.minute, b.minute);
    TwoDigits(a.second, b.second);
    assert Pow10(2) == 100 && Pow10(4) == 10000 && Pow10(6) == 1_000_000;
    PaddedInjective(a.year, b.year, 4);
    if a.micro != 0 { PaddedInjective(a.micro, b.micro, 6); }
  }

  /** The three lengths of a stamp, and what tells them apart seven characters from the end. */
  predicate StampShaped(s: string, some: bool) {
    && (if some then |s| in {19, 26} && IsDigit(s[|s| - 1]) else |s| == 4 && s[3] == 'e')
    && (|s| == 19 ==> IsDigit(s[12]))
    && (|s| == 26 ==> s[19] == '.')
  }

  lemma StampShape(t: Option<DateTime>)
    ensures StampShaped(StampText(t), t.Some?)
  {
    if t.Some? {
      PaddedDigits(t.value.second, 2);
      PaddedDigits(t.value.hour, 2);
      PaddedDigits(t.value.micro, 6);
      IsoTextSpells(t.value);
      SpelledShape(IsoText(t.value), t.value);
    }
  }

  lemma SpelledShape(s: string, t: DateTime)
    requires Spells(s, t)
    requires forall c | c in Padded(t.hour, 2) + Padded(t.second, 2) + Padded(t.micro, 6) :: IsDigit(c)
    ensures StampShaped(s, true)
  {
    assert s[18] == s[17..19][1] && s[12] == s[11..13][1];
    if t.micro != 0 { assert s[25] == s[20..26][5]; }
  }

  /** Counted from the end, two texts with the same whole agree wherever both reach. */
  lemma SameFromEnd(x: string, p: string, y: string, q: string, k: nat)
    requires x + p == y + q && 0 < k <= |p| && k <= |q|
    ensures p[|p| - k] == q[|q| - k]
  {
    var s := x + p;
    assert s[|s| - k] == p[|p| - k] && s[|s| - k] == q[|q| - k];
  }

  lemma StampLengths(x: string, p: string, somep: bool, y: string, q: string, someq: bool)
    requires x + p == y + q && StampShaped(p, somep) && StampShaped(q, someq)
    ensures |p| == |q| && somep == someq
  {
    SameFromEnd(x, p, y, q, 1);
    if |p| >= 19 && |q| >= 19 { SameFromEnd(x, p, y, q, 7); }
  }

  /** Stamps hold colons, and so may recipients, but a stamp is recognised from its end. */
  lemma StampReads(x: string, a: Option<DateTime>, y: string, b: Option<DateTime>)
    requires (a.Some? ==> a.value.Proper()) && (b.Some? ==> b.value.Proper())
    requires x + ":" + StampText(a) == y + ":" + StampText(b)
    ensures x == y && a == b
  {
    StampShape(a);
    StampShape(b);
    StampLengths(x + ":", StampText(a), a.Some?, y + ":", StampText(b), b.Some?);
    SplitAt(x + ":", StampText(a), y + ":", StampText(b));
    SplitAt(x, ":", y, ":");
    if a.Some? {
      IsoTextSpells(a.value);
      IsoTextSpells(b.value);
      SpelledOnce(IsoText(a.value), a.value, b.value);
    }
  }

  // ------------------------------------------------------------------- main result

  /** Two keys are equal exactly when the kind, the ids that kind uses, the recipient and the
      occasion are equal, whatever characters the recipients hold. */
  lemma KeysEqualExactly(a: Args, b: Args)
    requires Usable(a) && Usable(b)
    ensures BuildKey(a) == BuildKey(b) <==>
            a.kind == b.kind && SameIds(a, b) && a.recipient == b.recipient && SameOccasion(a, b)
  {
    IdTextInjective(a.workItem, b.workItem);
    IdTextInjective(b.workItem, a.workItem);
    DayTextReads(a.now, b.now);
    DayTextReads(b.now, a.now);
    HourTextReads(a.now, b.now);
    HourTextReads(b.now, a.now);
    if BuildKey(a) == BuildKey(b) {
      KeysTellApart(a, b);
    }
  }

  function AfterKind(a: Args): string {
    if Daily(a.kind) then IdText(a.event) + ":" + (IdText(a.department) + ":" + (a.recipient + ":" + DayText(a.now)))
    else if OncePerEvent(a.kind) then IdText(a.workItem) + ":" + (a.recipient + ":" + StampText(a.stamp))
    else IdText(a.workItem) + ":" + (a.recipient + ":" + HourText(a.now))
  }

  lemma KeysTellApart(a: Args, b: Args)
    requires Usable(a) && Usable(b) && BuildKey(a) == BuildKey(b)
    ensures a.kind == b.kind && SameIds(a, b) && a.recipient == b.recipient && SameOccasion(a, b)
  {
    FirstColon(a.kind, AfterKind(a), b.kind, AfterKind(b));
    if Daily(a.kind) {
      var (restA, restB) := (a.recipient + ":" + DayText(a.now), b.recipient + ":" + DayText(b.now));
      IdTextInjective(a.event, b.event);
      IdTextInjective(b.event, a.event);
      IdTextInjective(a.department, b.department);
      IdTextInjective(b.department, a.department);
      FirstColon(IdText(a.event), IdText(a.department) + ":" + restA,
                 IdText(b.event), IdText(b.department) + ":" + restB);
      FirstColon(IdText(a.department), restA, IdText(b.department), restB);
      DayTextReads(a.now, b.now);
      DayTextReads(b.now, a.now);
      LastColon(a.recipient, DayText(a.now), b.recipient, DayText(b.now));
    } else {
      IdTextInjective(a.workItem, b.workItem);
      IdTextInjective(b.workItem, a.workItem);
      if OncePerEvent(a.kind) {
        FirstColon(IdText(a.workItem), a.recipient + ":" + StampText(a.stamp),
                   IdText(b.workItem), b.recipient + ":" + StampText(b.stamp));
        StampReads(a.recipient, a.stamp, b.recipient, b.stamp);
      } else {
        FirstColon(IdText(a.workItem), a.recipient + ":" + HourText(a.now),
                   IdText(b.workItem), b.recipient + ":" + HourText(b.now));
        HourTextReads(a.now, b.now);
        HourTextReads(b.now, a.now);
        LastColon(a.recipient, HourText(a.now), b.recipient, HourText(b.now));
      }
    }
  }

  /** A colon in the kind would let two different notifications collide; no kind has one. */
  lemma ColonInKindCollides(now: DateTime)
    ensures var a := Args("x:1", None, None, None, "r", now, None);
            var b := Args("x", Some(1), None, None, "None:r", now, None);
            BuildKey(a) == BuildKey(b) && a.recipient != b.recipient
  {
    var a := Args("x:1", None, None, None, "r", now, None);
    var b := Args("x", Some(1), None, None, "None:r", now, None);
    var hour := ":" + HourText(now);
    assert IntText(1) == "1";
    assert BuildKey(a) == "x:1:None:r" + hour;
    assert BuildKey(b) == "x:1:None:r" + hour;
  }

  /** The same, kind by kind. */
  lemma KeysByKind(a: Args, b: Args)
    requires Usable(a) && Usable(b) && a.kind == b.kind
    ensures a.kind == "submission_reminder" ==>
              (BuildKey(a) == BuildKey(b) <==>
               && a.event == b.event && a.department == b.department && a.recipient == b.recipient
               && a.now.year == b.now.year && a.now.month == b.now.month && a.now.day == b.now.day)
    ensures || a.kind == "submission_confirmation" || a.kind == "finalized" || a.kind == "submitted"
            || a.kind == "sent_back" ==>
              (BuildKey(a) == BuildKey(b) <==>
               a.workItem == b.workItem && a.recipient == b.recipient && a.stamp == b.stamp)
    ensures a.kind == "dispatched" || a.kind == "needs_attention" || a.kind == "response_received" ==>
              (BuildKey(a) == BuildKey(b) <==>
               && a.workItem == b.workItem && a.recipient == b.recipient
               && a.now.year == b.now.year && a.now.month == b.now.month && a.now.day == b.now.day
               && a.now.hour == b.now.hour)
  {
    KeysEqualExactly(a, b);
  }
}
