/** Time, optional values and the few arithmetic facts the other modules share. */
module Basics {

  datatype Option<+T> = None | Some(value: T)

  /** An instant or a duration in microseconds, the resolution of the stored timestamps. */
  type Time = int

  const SECOND: int := 1_000_000
  const MINUTE: int := 60 * SECOND
  const HOUR: int := 60 * MINUTE
  const DAY: int := 24 * HOUR

  function Pow2(n: nat): (p: nat)
    ensures p >= 1
  {
    if n == 0 then 1 else 2 * Pow2(n - 1)
  }

  /** The least integer that is at least a / b. */
  function CeilDiv(a: int, b: int): int
    requires b > 0
  {
    (a + b - 1) / b
  }

  // -------------------------------------------------------------------- sequences

  function Past<T>(s: seq<T>): seq<T>
    requires s != []
  {
    s[..|s| - 1]
  }

  function Last<T>(s: seq<T>): T
    requires s != []
  {
    s[|s| - 1]
  }

  /** How often x stands in s. */
  function CountOf<T(==)>(s: seq<T>, x: T): nat {
    if s == [] then 0 else CountOf(s[..|s| - 1], x) + if s[|s| - 1] == x then 1 else 0
  }

  predicate IsDigit(c: char) { '0' <= c <= '9' }

  predicate AllDigits(s: string) { s == "" || (IsDigit(s[|s| - 1]) && AllDigits(s[..|s| - 1])) }

  lemma {:induction false} DigitsOnly(s: string)
    requires AllDigits(s)
    ensures forall c | c in s :: IsDigit(c)
  {
    if s != "" {
      DigitsOnly(s[..|s| - 1]);
      assert s == s[..|s| - 1] + [s[|s| - 1]];
    }
  }

  // -------------------------------------------------------------------- arithmetic

  /** A positive multiple of d is at least d. */
  lemma {:induction false} MultipleAtLeast(k: int, d: int)
    requires k >= 1 && d > 0
    ensures k * d >= d
  {
    if k > 1 { MultipleAtLeast(k - 1, d); }
  }

  /** Division is determined by a remainder in range. */
  lemma QuotientIs(x: int, d: int, q: int, rem: int)
    requires d > 0 && x == q * d + rem && 0 <= rem < d
    ensures x / d == q
  {
    var p := x / d;
    var diff := q - p;
    assert x == p * d + x % d;
    assert diff * d == q * d - p * d;
    if diff >= 1 {
      MultipleAtLeast(diff, d);
    } else if diff <= -1 {
      MultipleAtLeast(-diff, d);
    }
  }

  lemma QuotientStep(x: int, d: int)
    requires d > 0
    ensures (x + d) / d == x / d + 1
  {
    var q := x / d;
    assert x == q * d + x % d;
    assert (q + 1) * d == q * d + d;
    QuotientIs(x + d, d, q + 1, x % d);
  }

  lemma QuotientMonotone(x: int, y: int, d: int)
    requires d > 0 && x <= y
    ensures x / d <= y / d
  {
    var p, q := x / d, y / d;
    var diff := p - q;
    assert x == p * d + x % d && y == q * d + y % d;
    assert diff * d == p * d - q * d;
    if diff >= 1 { MultipleAtLeast(diff, d); }
  }
}
