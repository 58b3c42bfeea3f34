/** The issued-at value of a token: a UTC instant, counted in 100-nanosecond
    ticks since midnight of January 1 of year 1, converted to whole seconds
    since the Unix epoch (the NumericDate of section 2 of RFC 7519), and the
    decimal text of that 64-bit integer that goes into the claim. */
module NumericDate {
  import opened Wrappers

  const TicksPerSecond: int := 10_000_000
  /** Tick count of 1970-01-01T00:00:00Z. */
  const UnixEpochTicks: int := 621_355_968_000_000_000
  /** Tick count of the last representable instant, 9999-12-31T23:59:59.9999999. */
  const MaxTicks: int := 3_155_378_975_999_999_999

  const Int64Min: int := -0x8000_0000_0000_0000
  const Int64Max: int := 0x7FFF_FFFF_FFFF_FFFF

  /** A UTC instant as its tick count. */
  type Instant = t: int | 0 <= t <= MaxTicks

  type Int64 = n: int | Int64Min <= n <= Int64Max

  /** `ticks` divided by one second and rounded to the nearest integer, a tie
      going to the even neighbour (the default midpoint rule of the rounding
      the conversion uses). */
  function RoundTicksToSeconds(ticks: int): (r: int)
    ensures -TicksPerSecond <= 2 * (ticks - r * TicksPerSecond) <= TicksPerSecond
    ensures 2 * (ticks - r * TicksPerSecond) == TicksPerSecond ==> r % 2 == 0
    ensures 2 * (ticks - r * TicksPerSecond) == -TicksPerSecond ==> r % 2 == 0
  {
    var q := ticks / TicksPerSecond;
    var rem := ticks % TicksPerSecond;
    if 2 * rem < TicksPerSecond then q
    else if 2 * rem > TicksPerSecond then q + 1
    else if q % 2 == 0 then q
    else q + 1
  }

  /** Seconds from the Unix epoch to `date`, rounded to the nearest second. */
  function ToUnixEpochDate(date: Instant): (r: int)
    ensures Int64Min <= r <= Int64Max
    ensures -TicksPerSecond <= 2 * ((date - UnixEpochTicks) - r * TicksPerSecond) <= TicksPerSecond
    ensures 2 * ((date - UnixEpochTicks) - r * TicksPerSecond) == TicksPerSecond ==> r % 2 == 0
    ensures 2 * ((date - UnixEpochTicks) - r * TicksPerSecond) == -TicksPerSecond ==> r % 2 == 0
  {
    RoundTicksToSeconds(date - UnixEpochTicks)
  }

  /** Only one integer lies strictly within half a second of an instant, and
      the conversion picks it: the result rounds, it does not truncate. */
  lemma NearestSecond(date: Instant, k: int)
    requires -TicksPerSecond < 2 * ((date - UnixEpochTicks) - k * TicksPerSecond) < TicksPerSecond
    ensures ToUnixEpochDate(date) == k
  {
  }

  /** An instant exactly `k` whole seconds after the epoch converts to `k`;
      the epoch itself converts to 0. */
  lemma WholeSeconds(k: int)
    requires 0 <= UnixEpochTicks + k * TicksPerSecond <= MaxTicks
    ensures ToUnixEpochDate(UnixEpochTicks + k * TicksPerSecond) == k
  {
  }

  /** A later instant never converts to an earlier second. */
  lemma Monotonic(a: Instant, b: Instant)
    requires a <= b
    ensures ToUnixEpochDate(a) <= ToUnixEpochDate(b)
  {
  }

  /** Decimal text of a 64-bit integer, as printed by its `ToString`: a minus
      sign for negative values, then the digits with no leading zero. */
  function Int64ToString(n: Int64): (s: string)
    ensures (|s| > 0 && s[0] == '-') <==> n < 0
    ensures var digits := if n < 0 then s[1..] else s;
      |digits| > 0 && AllDigits(digits) && (|digits| > 1 ==> digits[0] != '0')
  {
    var m: int := n;
    if m < 0 then "-" + NatToDecimal(-m) else NatToDecimal(m)
  }

  function DigitChar(d: nat): (c: char)
    requires d < 10
    ensures IsDigit(c)
  {
    ('0' as int + d) as char
  }

  predicate IsDigit(c: char)
  {
    '0' <= c <= '9'
  }

  predicate AllDigits(s: string)
  {
    forall i :: 0 <= i < |s| ==> IsDigit(s[i])
  }

  function NatToDecimal(n: nat): (s: string)
    ensures |s| > 0 && AllDigits(s)
    ensures |s| > 1 ==> s[0] != '0'
    decreases n
  {
    if n < 10 then [DigitChar(n)] else NatToDecimal(n / 10) + [DigitChar(n % 10)]
  }

  /** Value of a string of decimal digits, most significant first. */
  function DigitsValue(s: string): (n: nat)
    requires AllDigits(s)
  {
    if s == [] then 0
    else DigitsValue(s[..|s| - 1]) * 10 + (s[|s| - 1] as int - '0' as int)
  }

  /** Reads the text of a 64-bit integer back: an optional minus sign followed
      by at least one digit, within the 64-bit range. Anything else is None. */
  function ParseInt64(s: string): (r: Option<int>)
    ensures r.Some? ==> Int64Min <= r.value <= Int64Max
  {
    var negative := |s| > 0 && s[0] == '-';
    var digits := if negative then s[1..] else s;
    if digits == [] || !AllDigits(digits) then None
    else
      var d: int := DigitsValue(digits);
      var v := if negative then -d else d;
      if Int64Min <= v <= Int64Max then Some(v) else None
  }

  lemma {:induction false} DecimalRoundTrip(n: nat)
    ensures DigitsValue(NatToDecimal(n)) == n
    decreases n
  {
    if n >= 10 {
      var s := NatToDecimal(n);
      assert s[..|s| - 1] == NatToDecimal(n / 10);
      DecimalRoundTrip(n / 10);
    }
  }

  /** Printing a 64-bit integer and reading the text back gives the integer. */
  lemma Int64RoundTrip(n: Int64)
    ensures ParseInt64(Int64ToString(n)) == Some(n)
  {
    var s, m: int := Int64ToString(n), n;
    if m < 0 {
      assert s[0] == '-' && s[1..] == NatToDecimal(-m);
      DecimalRoundTrip(-m);
    } else {
      assert s[0] != '-';
      DecimalRoundTrip(n);
    }
  }

  /** Distinct integers print as distinct texts. */
  lemma Int64ToStringInjective(a: Int64, b: Int64)
    requires Int64ToString(a) == Int64ToString(b)
    ensures a == b
  {
    Int64RoundTrip(a);
    Int64RoundTrip(b);
  }
}
