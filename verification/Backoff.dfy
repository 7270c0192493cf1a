/** The exponential prod-issuance backoff, in the int64 arithmetic it is computed in. */
module Backoff {
  import opened Prelude

  const MINUTE := 60_000_000_000
  const BASE := 15 * MINUTE
  const MAX := 60 * MINUTE

  const TWO_42 := 0x400_0000_0000
  const TWO_63 := 0x8000_0000_0000_0000
  const TWO_64 := 0x1_0000_0000_0000_0000

  function Pow2(n: nat): (r: nat)
    ensures r > 0
  {
    if n == 0 then 1 else 2 * Pow2(n - 1)
  }

  /** An integer as the int64 with the same low 64 bits. */
  function Int64(x: int): int {
    (x + TWO_63) % TWO_64 - TWO_63
  }

  /** The backoff after `n` consecutive failures; the shift wraps before the guard looks at it. */
  function ProdBackoffFor(n: int): int {
    if n <= 0 then BASE
    else
      var d := Int64(BASE * Pow2(n - 1));
      if d <= 0 || d > MAX then MAX else d
  }

  /** The low 64 bits of the base shifted left by `s`, read as an unsigned number. */
  function Low(s: nat): (r: nat)
    ensures r < TWO_64
  {
    if s == 0 then BASE else (2 * Low(s - 1)) % TWO_64
  }

  lemma ModDouble(x: nat)
    ensures (2 * (x % TWO_64)) % TWO_64 == (2 * x) % TWO_64
  {
  }

  lemma {:induction false} LowIsShift(s: nat)
    ensures Low(s) == (BASE * Pow2(s)) % TWO_64
  {
    if s > 0 {
      LowIsShift(s - 1);
      ModDouble(BASE * Pow2(s - 1));
      assert BASE * Pow2(s) == 2 * (BASE * Pow2(s - 1));
    }
  }

  /** Reading the low 64 bits as a signed number. */
  lemma Int64OfLow(x: nat)
    ensures var r := x % TWO_64; Int64(x) == if r < TWO_63 then r else r - TWO_64
  {
  }

  lemma MultipleDoubles(x: nat)
    requires x < TWO_64 && x % TWO_42 == 0
    ensures ((2 * x) % TWO_64) % TWO_42 == 0
  {
    var k := x / TWO_42;
    assert x == TWO_42 * k;
    if 2 * x < TWO_64 {
      assert 2 * x == TWO_42 * (2 * k);
    } else {
      assert (2 * x) % TWO_64 == 2 * x - TWO_64 == TWO_42 * (2 * k - 0x40_0000);
    }
  }

  /** Up to a shift by 31 the low bits are computed; beyond that they stay a multiple of 2^42. */
  lemma {:induction false} LowTable(s: nat)
    requires 3 <= s <= 31
    ensures Low(s) > MAX && (s == 31 ==> Low(s) % TWO_42 == 0)
  {
    assert Low(1) == 1_800_000_000_000;
    assert Low(2) == 3_600_000_000_000;
    assert Low(3) == 7_200_000_000_000;
    assert Low(4) == 14_400_000_000_000;
    assert Low(5) == 28_800_000_000_000;
    assert Low(6) == 57_600_000_000_000;
    assert Low(7) == 115_200_000_000_000;
    assert Low(8) == 230_400_000_000_000;
    assert Low(9) == 460_800_000_000_000;
    assert Low(10) == 921_600_000_000_000;
    assert Low(11) == 1_843_200_000_000_000;
    assert Low(12) == 3_686_400_000_000_000;
    assert Low(13) == 7_372_800_000_000_000;
    assert Low(14) == 14_745_600_000_000_000;
    assert Low(15) == 29_491_200_000_000_000;
    assert Low(16) == 58_982_400_000_000_000;
    assert Low(17) == 117_964_800_000_000_000;
    assert Low(18) == 235_929_600_000_000_000;
    assert Low(19) == 471_859_200_000_000_000;
    assert Low(20) == 943_718_400_000_000_000;
    assert Low(21) == 1_887_436_800_000_000_000;
    assert Low(22) == 3_774_873_600_000_000_000;
    assert Low(23) == 7_549_747_200_000_000_000;
    assert Low(24) == 15_099_494_400_000_000_000;
    assert Low(25) == 11_752_244_726_290_448_384;
    assert Low(26) == 5_057_745_378_871_345_152;
    assert Low(27) == 10_115_490_757_742_690_304;
    assert Low(28) == 1_784_237_441_775_828_992;
    assert Low(29) == 3_568_474_883_551_657_984;
    assert Low(30) == 7_136_949_767_103_315_968;
    assert Low(31) == 14_273_899_534_206_631_936;
  }

  lemma {:induction false} LowNeverLooksShort(s: nat)
    requires s >= 3
    ensures Low(s) == 0 || Low(s) > MAX
    ensures s >= 31 ==> Low(s) % TWO_42 == 0
  {
    if s <= 31 {
      LowTable(s);
    } else {
      LowNeverLooksShort(s - 1);
      MultipleDoubles(Low(s - 1));
    }
  }

  lemma {:induction false} Pow2AtLeast(n: nat)
    requires n >= 2
    ensures Pow2(n) >= 4
  {
  }

  /** For every failure count, overflowing shifts included, the backoff is the
      base doubled per further failure, capped at the maximum. */
  lemma {:induction false} BackoffIsCappedDoubling(n: nat)
    requires n >= 1
    ensures ProdBackoffFor(n) == Min(BASE * Pow2(n - 1), MAX)
  {
    if n <= 3 {
      assert Pow2(0) == 1 && Pow2(1) == 2 && Pow2(2) == 4;
    } else {
      var x := BASE * Pow2(n - 1);
      Pow2AtLeast(n - 1);
      LowIsShift(n - 1);
      LowNeverLooksShort(n - 1);
      Int64OfLow(x);
    }
  }

  /** Hence it is bounded and never shrinks as failures accumulate. */
  lemma {:induction false} BackoffMonotone(n: int, m: int)
    requires n <= m
    ensures BASE <= ProdBackoffFor(n) <= ProdBackoffFor(m) <= MAX
  {
    if n >= 1 {
      BackoffIsCappedDoubling(n);
      Pow2Monotone(n - 1, m - 1);
    }
    if m >= 1 {
      BackoffIsCappedDoubling(m);
    }
  }

  lemma {:induction false} Pow2Monotone(a: nat, b: nat)
    requires a <= b
    ensures Pow2(a) <= Pow2(b)
    decreases b
  {
    if a < b {
      Pow2Monotone(a, b - 1);
    }
  }
}
