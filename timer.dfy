/** `TimerParams::new`: the prescaler divider and the 16-bit cycle count a
    timer counter needs to fire at a given rate from a given source clock. */
module Timer {
  import opened Common

  datatype TimerParams = TimerParams(divider: u16, cycles: u32)

  /** The prescaler settings the counter has. */
  predicate IsDivider(d: nat) {
    d == 1 || d == 2 || d == 4 || d == 8 || d == 16 || d == 64 || d == 256 || d == 1024
  }

  ghost predicate IsPowerOfTwo(p: nat) {
    p == 1 || (p >= 2 && p % 2 == 0 && IsPowerOfTwo(p / 2))
  }

  /** `next_power_of_two`, searching upward from the power of two `p`: the
      least power of two that is at least `v`. */
  function PowerOfTwoFrom(v: nat, p: nat): (r: nat)
    requires IsPowerOfTwo(p) && (p == 1 || p / 2 < v)
    ensures IsPowerOfTwo(r) && r >= v && r >= p
    ensures r == 1 || r / 2 < v
    decreases v - p
  {
    if p >= v then p else PowerOfTwoFrom(v, 2 * p)
  }

  /** The least power of two that is at least `v`. */
  function NextPowerOfTwo(v: nat): (r: nat)
    ensures IsPowerOfTwo(r) && r >= v && (r == 1 || r / 2 < v)
  {
    PowerOfTwoFrom(v, 1)
  }

  /** The prescaler setting for the power of two `p`. */
  function Divider(p: nat): (d: nat)
    ensures IsDivider(d)
    ensures p > 1024 ==> d == 1024
  {
    if IsDivider(p) then p
    else if p == 32 then 64
    else if p == 128 then 256
    else if p == 512 then 1024
    else 1024
  }

  /** A power of two up to 1024 becomes the least prescaler setting at or
      above it: itself when there is one, and 32, 128 and 512, which have
      none, round up. */
  lemma DividerRoundsUp(p: nat)
    requires IsPowerOfTwo(p) && p <= 1024
    ensures Divider(p) >= p
    ensures forall e: nat :: IsDivider(e) && e >= p ==> Divider(p) <= e
  {
    SmallPowers(p);
  }

  /** The powers of two up to 1024. */
  lemma {:induction false} SmallPowers(p: nat)
    requires IsPowerOfTwo(p) && p <= 1024
    ensures p in {1, 2, 4, 8, 16, 32, 64, 128, 256, 512, 1024}
  {
    if p > 1 {
      SmallPowers(p / 2);
    }
  }

  /** The source clock cycles per period; a timeout of 0 Hz stands for 1 Hz. */
  function Ticks(timeout: u32, srcFreq: u32): (t: nat)
    ensures t <= srcFreq
    ensures timeout <= 1 ==> t == srcFreq
  {
    DivAtMost(srcFreq, Max(timeout, 1));
    srcFreq / Max(timeout, 1)
  }

  /** The divider chosen for `ticks`: the least power of two above
      `ticks >> 16`, rounded up to a prescaler setting. */
  function DividerFor(ticks: nat): (d: nat)
    ensures IsDivider(d)
    ensures ticks / 0x1_0000 + 1 <= 1024 ==> d > ticks / 0x1_0000
  {
    var p := NextPowerOfTwo(ticks / 0x1_0000 + 1);
    if ticks / 0x1_0000 + 1 <= 1024 then
      PowerOfTwoAtMost(ticks / 0x1_0000 + 1);
      DividerRoundsUp(p);
      Divider(p)
    else
      Divider(p)
  }

  /** `TimerParams::new(timeout, src_freq)`: the counter panics when the
      cycle count does not fit 16 bits. */
  function New(timeout: u32, srcFreq: u32): (r: Outcome<TimerParams>)
    ensures r.Returns? <==> Ticks(timeout, srcFreq) / DividerFor(Ticks(timeout, srcFreq)) <= U16_MAX
    ensures r.Returns? ==> IsDivider(r.value.divider)
    ensures r.Returns? ==> r.value.divider == DividerFor(Ticks(timeout, srcFreq))
    ensures r.Returns? ==> r.value.cycles == Ticks(timeout, srcFreq) / r.value.divider
  {
    var ticks := Ticks(timeout, srcFreq);
    var divider: u16 := DividerFor(ticks);
    var cycles := ticks / divider;
    if cycles > U16_MAX then Panics
    else Returns(TimerParams(divider, cycles as u32))
  }

  lemma DivAtMost(a: nat, d: nat)
    requires d >= 1
    ensures a / d <= a
  {
    DivModUniqueLe(a, d);
  }

  lemma DivModUniqueLe(a: nat, d: nat)
    requires d >= 1
    ensures a / d * d <= a && a / d <= a / d * d
  {
    var q, r := a / d, a % d;
    assert a == q * d + r;
    assert q * d == q + q * (d - 1);
  }

  function Max(a: nat, b: nat): (m: nat)
    ensures m >= a && m >= b && (m == a || m == b)
  {
    if a >= b then a else b
  }

  /** Whenever the power of two that `ticks >> 16` asks for is a divider the
      counter has (at most 1024), the panic cannot happen. */
  lemma NoPanicWithinRange(timeout: u32, srcFreq: u32)
    requires Ticks(timeout, srcFreq) / 0x1_0000 + 1 <= 1024
    ensures New(timeout, srcFreq).Returns?
  {
    var ticks := Ticks(timeout, srcFreq);
    QuotientBelow(ticks, DividerFor(ticks));
  }

  /** The next power of two of a value at most 1024 is at most 1024. */
  lemma PowerOfTwoAtMost(v: nat)
    requires v <= 1024
    ensures NextPowerOfTwo(v) <= 1024
  {
    var r := NextPowerOfTwo(v);
    if r > 1024 {
      assert r / 2 < v;
      PowerAbove(r);
    }
  }

  /** A power of two above 1024 is at least 2048. */
  lemma {:induction false} PowerAbove(r: nat)
    requires IsPowerOfTwo(r) && r > 1024
    ensures r >= 2048
  {
    if r < 2048 {
      assert r / 2 > 512 && r / 2 < 1024;
      PowerBetween(r / 2, 512);
    }
  }

  /** No power of two lies strictly between `k` and `2k` for a power of
      two `k`. */
  lemma {:induction false} PowerBetween(r: nat, k: nat)
    requires IsPowerOfTwo(r) && IsPowerOfTwo(k) && k < r < 2 * k
    ensures false
  {
    if k == 1 {
    } else {
      assert r >= 2;
      PowerBetween(r / 2, k / 2);
    }
  }

  /** `ticks / d < 65536` once `d > ticks / 65536`. */
  lemma QuotientBelow(ticks: nat, d: nat)
    requires d >= ticks / 0x1_0000 + 1
    ensures ticks / d <= U16_MAX
  {
    var q := ticks / 0x1_0000;
    assert ticks < (q + 1) * 0x1_0000;
    assert (q + 1) * 0x1_0000 <= d * 0x1_0000;
  }
}
