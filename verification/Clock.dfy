/** Time arithmetic of the NetFlow decoder: NTP timestamps, computed in floating point, and times
    given as milliseconds of uptime. Times are nanoseconds since 1970. */
module Clock {
  import opened Basics

  const NTP_EPOCH_OFFSET := 2208988800
  const SECOND := 1_000_000_000
  const MILLISECOND := 1_000_000

  // ---------------------------------------------------------------- NTP

  function Pow2(k: nat): (p: real)
    ensures p > 0.0
  {
    if k == 0 then 1.0 else 2.0 * Pow2(k - 1)
  }

  /** x = m / 2^k with a 53-bit m: a double, for the exponents that occur here. */
  ghost predicate Double(x: real) {
    exists m: nat, k: nat :: IsRatio(x, m, k) && m < TWO53 && k <= 1000
  }

  ghost predicate IsRatio(x: real, m: nat, k: nat) { x * Pow2(k) == m as real }

  /** Any rounding mode: it may do anything to a number that is not a double. */
  ghost predicate Rounds(round: real -> real) {
    forall x :: Double(x) ==> round(x) == x
  }

  /** time.Duration(float64(f) / (1 << 32) * float64(time.Second)), each operation rounded. */
  function FractionNanos(round: real -> real, f: nat): int {
    round(round(round(f as real) / TWO32 as real) * SECOND as real).Floor
  }

  lemma {:induction false} Pow2Add(j: nat, k: nat)
    ensures Pow2(j + k) == Pow2(j) * Pow2(k)
  {
    if j > 0 { Pow2Add(j - 1, k); }
  }

  lemma Pow2Values()
    ensures Pow2(23) == 8388608.0 && Pow2(32) == 4294967296.0
  {
    assert Pow2(8) == 256.0;
    Pow2Add(8, 8);
    Pow2Add(16, 16);
    assert Pow2(7) == 128.0;
    Pow2Add(16, 7);
  }

  lemma RatioIsDouble(x: real, m: nat, k: nat)
    requires x * Pow2(k) == m as real && m < TWO53 && k <= 1000
    ensures Double(x)
  {
    assert IsRatio(x, m, k);
  }

  /** The fraction times 10^9 / 2^32 is the fraction times 5^9 over 2^23, and that product is below
      2^53: no operation rounds, whatever the rounding mode. */
  lemma FractionIsExact(round: real -> real, f: nat)
    requires Rounds(round) && f < TWO32
    ensures FractionNanos(round, f) == f * 1_000_000_000 / 0x1_0000_0000
  {
    Pow2Values();
    var x0 := f as real;
    RatioIsDouble(x0, f, 0);
    var x1 := x0 / 4294967296.0;
    RatioIsDouble(x1, f, 32);
    var x2 := x1 * 1000000000.0;
    assert x2 * 8388608.0 == (f * 1953125) as real;
    RatioIsDouble(x2, f * 1953125, 23);
    assert round(x0) == x0 && round(x1) == x1 && round(x2) == x2;
    FloorOfRatio(x2, f);
  }

  lemma FloorOfRatio(x: real, f: nat)
    requires x == f as real / 4294967296.0 * 1000000000.0
    ensures x.Floor == f * SECOND / TWO32
  {
    var q, r := f * SECOND / TWO32, f * SECOND % TWO32;
    assert f * SECOND == q * TWO32 + r;
    assert x * 4294967296.0 == (f * SECOND) as real;
    assert x * 4294967296.0 == q as real * 4294967296.0 + r as real;
    assert q as real <= x < q as real + 1.0;
  }

  function NtpToTime(round: real -> real, v: nat): int {
    Micro((v / TWO32 - NTP_EPOCH_OFFSET) * SECOND + FractionNanos(round, v % TWO32))
  }

  /** Every 64-bit NTP timestamp is converted to the exact floor in microseconds, all 32 fraction
      bits used. */
  lemma NtpIsExact(round: real -> real, v: nat)
    requires Rounds(round) && v < TWO32 * TWO32
    ensures NtpToTime(round, v) == (v * 1_000_000 / 0x1_0000_0000 - 2208988800 * 1_000_000) * 1000
  {
    var s, f := v / TWO32, v % TWO32;
    FractionIsExact(round, f);
    var n := f * SECOND / TWO32;
    NestedFloor(f);
    assert v * 1_000_000 == s * 1_000_000 * TWO32 + f * 1_000_000;
    SplitDivision(s * 1_000_000, f * 1_000_000);
    WholePart(s - NTP_EPOCH_OFFSET, n);
  }

  lemma NestedFloor(f: nat)
    ensures f * SECOND / TWO32 / 1000 == f * 1_000_000 / TWO32
  {
    var n, m := f * SECOND / TWO32, f * 1_000_000 / TWO32;
    assert m * TWO32 <= f * 1_000_000 < m * TWO32 + TWO32;
    assert m * 1000 * TWO32 <= f * SECOND < (m * 1000 + 1000) * TWO32;
    assert m * 1000 <= n < m * 1000 + 1000;
  }

  lemma SplitDivision(whole: nat, rest: nat)
    ensures (whole * TWO32 + rest) / TWO32 == whole + rest / TWO32
  {
  }

  lemma WholePart(s: int, n: int)
    ensures Micro(s * SECOND + n) == (s * 1_000_000 + n / 1000) * 1000
  {
    var q, r := n / 1000, n % 1000;
    assert s * SECOND + n == 1000 * (s * 1_000_000 + q) + r;
    Remainder(s * 1_000_000 + q, r);
  }

  lemma Remainder(k: int, r: int)
    requires 0 <= r < 1000
    ensures (1000 * k + r) % 1000 == r
  {
  }

  // ---------------------------------------------------------------- uptime

  /** The exporter's boot time from the header of a v5 or v9 datagram. */
  function Boot(secs: nat, nsecs: nat, uptime: nat): int { secs * SECOND + nsecs - uptime * MILLISECOND }

  function UptimeToTime(boot: int, ms: nat): int { Micro(boot + ms * MILLISECOND) }

  predicate Uint32(n: nat) { n < TWO32 }

  /** No product or sum leaves 64 bits; a time is the floor of wall clock minus uptime plus offset;
      and the difference of two times is the wire's difference in milliseconds, truncation or not. */
  lemma UptimeIsExact(secs: nat, nsecs: nat, uptime: nat, first: nat, last: nat)
    requires Uint32(secs) && Uint32(nsecs) && Uint32(uptime) && Uint32(first) && Uint32(last)
    ensures uptime * 1_000_000 < TWO63 && first * 1_000_000 < TWO63
    ensures -TWO63 <= Boot(secs, nsecs, uptime) < TWO63
    ensures -TWO63 <= Boot(secs, nsecs, uptime) + first * 1_000_000 < TWO63
    ensures var exact := secs * 1_000_000_000 + nsecs + (first - uptime) * 1_000_000;
            exact - 1000 < UptimeToTime(Boot(secs, nsecs, uptime), first) <= exact
            && UptimeToTime(Boot(secs, nsecs, uptime), first) % 1000 == 0
    ensures UptimeToTime(Boot(secs, nsecs, uptime), last) - UptimeToTime(Boot(secs, nsecs, uptime), first)
            == (last - first) * 1_000_000
  {
    var boot := Boot(secs, nsecs, uptime);
    WholeMillis(boot, first);
    WholeMillis(boot, last);
  }

  lemma WholeMillis(boot: int, ms: nat)
    ensures UptimeToTime(boot, ms) == Micro(boot) + ms * MILLISECOND
  {
    assert boot + ms * MILLISECOND == boot + 1000 * (ms * 1000);
  }
}
