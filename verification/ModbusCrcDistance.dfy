// How many flipped bits the CRC-16 of Modbus over serial line detects for certain
// (src-tauri/src/modbus.rs, `modbus_crc16`): any two different accepted frames of one
// length, up to 4095 bytes, differ in at least four bits.
//
// Odd numbers of flips are ruled out by parity. Two flips d bits apart go unnoticed only
// if d shifts bring the register 1 back to 1; the proof is that the first such d is not
// smaller than 32767. The polynomial is (x + 1)(x^15 + x + 1), so on multiples of x + 1 a
// shift by 15 is the sum of the shifts by 1 and by 0, and squaring doubles such relations.
module ModbusCrcDistance {
  import opened Common
  import opened ModbusBytes
  import opened ModbusCrc

  // ---------------------------------------------------------------- shifting many times

  lemma {:induction false} ShiftTimesAdd(m: nat, n: nat, c: u16)
    ensures ShiftTimes(m + n, c) == ShiftTimes(m, ShiftTimes(n, c))
    decreases n
  {
    hide Shift;
    if n > 0 {
      ShiftTimesAdd(m, n - 1, Shift(c));
    }
  }

  lemma {:induction false} ShiftTimesLinear(n: nat, x: u16, y: u16)
    ensures ShiftTimes(n, XorWord(x, y)) == XorWord(ShiftTimes(n, x), ShiftTimes(n, y))
    decreases n
  {
    hide Shift, XorWord;
    if n > 0 {
      ShiftLinear(x, y);
      ShiftTimesLinear(n - 1, Shift(x), Shift(y));
    }
  }

  // ---------------------------------------------------------------- the orbit of x + 1

  // The register 1 plus its own shift.
  const Seed: u16 := 0xa000

  function Orbit(n: nat): u16 { ShiftTimes(n, Seed) }

  // The register after a shifts is the sum of those after b and after c shifts.
  predicate Sums(a: nat, b: nat, c: nat) { Orbit(a) == XorWord(Orbit(b), Orbit(c)) }

  lemma SumsLater(a: nat, b: nat, c: nat, n: nat)
    requires Sums(a, b, c)
    ensures Sums(n + a, n + b, n + c)
  {
    hide ShiftTimes, XorWord;
    ShiftTimesAdd(n, a, Seed);
    ShiftTimesAdd(n, b, Seed);
    ShiftTimesAdd(n, c, Seed);
    ShiftTimesLinear(n, Orbit(b), Orbit(c));
  }

  lemma MiddleCancels(x: u16, y: u16, z: u16)
    ensures XorWord(XorWord(x, y), XorWord(y, z)) == XorWord(x, z)
  {
    hide Xor;
    XorAssociative(x, y, Xor(y, z));
    XorTwice(y, z);
  }

  // Squaring.
  lemma SumsDouble(a: nat, b: nat, c: nat)
    requires Sums(a, b, c)
    ensures Sums(2 * a, 2 * b, 2 * c)
  {
    hide ShiftTimes, XorWord, Orbit;
    SumsLater(a, b, c, a);
    SumsLater(a, b, c, b);
    SumsLater(a, b, c, c);
    MiddleCancels(Orbit(b + b), Orbit(b + c), Orbit(c + c));
  }

  lemma OrbitStep(n: nat)
    ensures Orbit(n + 1) == Shift(Orbit(n))
  {
    ShiftTimesAdd(1, n, Seed);
  }

  lemma OrbitHalves(n: nat, c: u16)
    requires Orbit(n) == 2 * c
    ensures Orbit(n + 1) == c
  {
    OrbitStep(n);
  }

  // The first places of the orbit: no one falls out of the register before the last.
  lemma FirstPlaces()
    ensures Orbit(0) == 0xa000 && Orbit(1) == 0x5000 && Orbit(2) == 0x2800 && Orbit(3) == 0x1400
    ensures Orbit(4) == 0x0a00 && Orbit(5) == 0x0500 && Orbit(6) == 0x0280 && Orbit(7) == 0x0140
    ensures Orbit(8) == 0x00a0 && Orbit(9) == 0x0050 && Orbit(10) == 0x0028 && Orbit(11) == 0x0014
    ensures Orbit(12) == 0x000a && Orbit(13) == 0x0005
  {
    assert Orbit(0) == 0xa000;
    hide Orbit;
    OrbitHalves(0, 0x5000);
    OrbitHalves(1, 0x2800);
    OrbitHalves(2, 0x1400);
    OrbitHalves(3, 0x0a00);
    OrbitHalves(4, 0x0500);
    OrbitHalves(5, 0x0280);
    OrbitHalves(6, 0x0140);
    OrbitHalves(7, 0x00a0);
    OrbitHalves(8, 0x0050);
    OrbitHalves(9, 0x0028);
    OrbitHalves(10, 0x0014);
    OrbitHalves(11, 0x000a);
    OrbitHalves(12, 0x0005);
  }

  // x^15 is x + 1.
  lemma FirstSum()
    ensures Sums(15, 1, 0)
  {
    hide Xor, Orbit;
    FirstPlaces();
    OrbitStep(13);
    OrbitStep(14);
    XorOfParts();
    assert Shift(5) == XorWord(2, POLYNOMIAL);
    assert Shift(0xa003) == XorWord(0x5001, POLYNOMIAL);
  }

  lemma XorOfParts()
    ensures Xor(2, POLYNOMIAL) == 0xa003
    ensures Xor(0x5001, POLYNOMIAL) == Xor(0x5000, 0xa000)
  {
    hide Xor;
    XorHalves(2, POLYNOMIAL);
    XorHalves(1, 0x5000);
    XorZero(0x2800);
    XorHalves(0x5001, POLYNOMIAL);
    XorHalves(0x5000, 0xa000);
  }

  // Squared again and again: x^(16p) is x^(2p) + x^p for every power p of two, here with
  // any further shift.
  lemma {:induction false} PowerSum(k: nat)
    ensures Sums(16 * Pow2(k), 2 * Pow2(k), Pow2(k))
  {
    hide Sums;
    if k == 0 {
      FirstSum();
      SumsLater(15, 1, 0, 1);
    } else {
      PowerSum(k - 1);
      SumsDouble(16 * Pow2(k - 1), 2 * Pow2(k - 1), Pow2(k - 1));
    }
  }

  lemma Near(k: nat, p: nat, n: nat)
    requires p == Pow2(k)
    ensures Sums(16 * p + n, 2 * p + n, p + n)
  {
    hide Sums;
    PowerSum(k);
    SumsLater(16 * p, 2 * p, p, n);
  }

  // Two such steps at once.
  lemma Far(k: nat, p: nat, n: nat)
    requires p == Pow2(k)
    ensures Sums(256 * p + n, 4 * p + n, p + n)
  {
    assert Pow2(k + 1) == 2 * p && Pow2(k + 2) == 4 * p && Pow2(k + 3) == 8 * p && Pow2(k + 4) == 16 * p;
    hide Pow2, Orbit, XorWord;
    Near(k + 4, 16 * p, n);
    Near(k + 1, 2 * p, n);
    Near(k, p, n);
    MiddleCancels(Orbit(4 * p + n), Orbit(2 * p + n), Orbit(p + n));
  }

  // ---------------------------------------------------------------- the orbit closes

  lemma PowersOfTwo()
    ensures Pow2(0) == 1 && Pow2(1) == 2 && Pow2(2) == 4 && Pow2(3) == 8 && Pow2(4) == 16
    ensures Pow2(7) == 128 && Pow2(12) == 0x1000 && Pow2(14) == 0x4000 && Pow2(15) == 0x8000 && Pow2(16) == 0x1_0000
  {
    WordLimit();
  }

  lemma OrbitCloses()
    ensures Orbit(32767) == Orbit(0)
  {
    hide Orbit, Pow2, XorWord;
    PowersOfTwo();
    Far(7, 128, 0);
    Far(1, 2, 0);
    Near(3, 8, 0);
    Near(0, 1, 0);
    var one, two, eight := Orbit(1), Orbit(2), Orbit(8);
    assert Orbit(32768) == XorWord(XorWord(eight, two), XorWord(XorWord(two, one), eight));
    FourCancel(eight, two, one);
    OrbitStep(32767);
    OrbitStep(0);
    ShiftInjective(Orbit(32767), Orbit(0));
  }

  lemma FourCancel(x: u16, y: u16, z: u16)
    ensures XorWord(XorWord(x, y), XorWord(XorWord(y, z), x)) == z
  {
    hide Xor;
    XorCommutative(Xor(y, z), x);
    XorCommutative(x, y);
    MiddleCancels(y, x, XorWord(y, z));
    XorTwice(y, z);
  }

  // ---------------------------------------------------------------- and not earlier

  lemma BelowSum(a: nat, b: nat, c: nat, bits: nat)
    requires Sums(a, b, c) && Orbit(b) < Pow2(bits) && Orbit(c) < Pow2(bits)
    ensures Orbit(a) < Pow2(bits)
  {
    hide Xor, Orbit, Pow2;
    XorFits(Orbit(b), Orbit(c), bits);
  }

  // A far place is small if the places it is the sum of are.
  lemma NearBelow(k: nat, p: nat, n: nat, bits: nat)
    requires p == Pow2(k) && Orbit(2 * p + n) < Pow2(bits) && Orbit(p + n) < Pow2(bits)
    ensures Orbit(16 * p + n) < Pow2(bits)
  {
    hide Orbit, Pow2, Sums;
    Near(k, p, n);
    BelowSum(16 * p + n, 2 * p + n, p + n, bits);
  }

  lemma FarBelow(k: nat, p: nat, n: nat, bits: nat)
    requires p == Pow2(k) && Orbit(4 * p + n) < Pow2(bits) && Orbit(p + n) < Pow2(bits)
    ensures Orbit(256 * p + n) < Pow2(bits)
  {
    hide Orbit, Pow2, Sums;
    Far(k, p, n);
    BelowSum(256 * p + n, 4 * p + n, p + n, bits);
  }

  // The places a little further on that the three bounds below rest on.
  lemma NearPlaces()
    ensures Orbit(17) < 0x4000 && Orbit(31) < 0x8000 && Orbit(33) < 0x8000
    ensures Orbit(19) < 0x1000 && Orbit(25) < 0x1000 && Orbit(27) < 0x1000 && Orbit(35) < 0x1000
    ensures Orbit(37) < 0x1000 && Orbit(41) < 0x1000 && Orbit(49) < 0x1000
  {
    hide Orbit, Pow2;
    PowersOfTwo();
    FirstPlaces();
    NearBelow(0, 1, 0, 15);
    NearBelow(0, 1, 1, 14);
    NearBelow(0, 1, 15, 15);
    NearBelow(1, 2, 1, 15);
    NearBelow(0, 1, 3, 12);
    NearBelow(0, 1, 9, 12);
    NearBelow(0, 1, 11, 12);
    NearBelow(1, 2, 3, 12);
    NearBelow(1, 2, 5, 12);
    NearBelow(1, 2, 9, 12);
    NearBelow(0, 1, 5, 12);
    NearBelow(1, 2, 17, 12);
  }

  lemma NotAt1057()
    ensures Orbit(1057) != Orbit(0)
  {
    hide Orbit, Pow2;
    PowersOfTwo();
    FirstPlaces();
    NearPlaces();
    FarBelow(2, 4, 33, 12);
  }

  lemma NotAt4681()
    ensures Orbit(4681) != Orbit(0)
  {
    hide Orbit, Pow2;
    PowersOfTwo();
    FirstPlaces();
    NearPlaces();
    NearBelow(3, 8, 17, 15);
    NearBelow(3, 8, 11, 15);
    NearBelow(2, 4, 33, 15);
    NearBelow(2, 4, 27, 15);
    FarBelow(1, 2, 137, 15);
    FarBelow(1, 2, 89, 15);
    FarBelow(4, 16, 585, 15);
  }

  lemma NotAt217()
    ensures Orbit(217) != Orbit(0)
  {
    hide Orbit, Pow2, XorWord;
    PowersOfTwo();
    FirstPlaces();
    NearPlaces();
    NearBelow(2, 4, 33, 12);
    Near(3, 8, 89);
    Near(2, 4, 41);
    Near(1, 2, 13);
    FirstSum();
    var a, b, c, d, e := Orbit(49), Orbit(17), Orbit(1), Orbit(0), Orbit(97);
    assert Orbit(217) == XorWord(XorWord(a, XorWord(b, XorWord(c, d))), e);
    BitSurvives(a, b, c, d, e);
  }

  // A sum in which bit 14 occurs once, next to d, is not d.
  lemma BitSurvives(a: u16, b: u16, c: u16, d: u16, e: u16)
    requires a < 0x4000 && b < 0x4000 && 0x4000 <= c < 0x8000 && e < 0x4000
    ensures XorWord(XorWord(a, XorWord(b, XorWord(c, d))), e) != d
  {
    hide Xor, Pow2;
    PowersOfTwo();
    var bc := Xor(b, c);
    XorKeepsTopBit(b, c, 14);
    XorFits(b, c, 15);
    var abc := Xor(a, bc);
    XorKeepsTopBit(a, bc, 14);
    XorFits(a, bc, 15);
    var all := Xor(e, abc);
    XorKeepsTopBit(e, abc, 14);
    XorAssociative(b, c, d);
    XorAssociative(a, bc, d);
    XorCommutative(Xor(abc, d), e);
    XorAssociative(e, abc, d);
    if Xor(all, d) == d {
      XorCommutative(all, d);
      XorZero(d);
      XorCancels(d, all, 0);
    }
  }

  // ---------------------------------------------------------------- periods

  predicate Period(n: nat) { Orbit(n) == Orbit(0) }

  lemma PeriodDifference(a: nat, b: nat)
    requires Period(a) && Period(b) && a >= b
    ensures Period(a - b)
  {
    ShiftTimesAdd(a - b, b, Seed);
  }

  lemma {:induction false} PeriodMultiple(g: nat, k: nat)
    requires Period(g)
    ensures Period(k * g)
  {
    if k > 0 {
      PeriodMultiple(g, k - 1);
      ShiftTimesAdd((k - 1) * g, g, Seed);
      assert (k - 1) * g + g == k * g;
    }
  }

  // Two periods have a common divisor that is a period.
  lemma {:induction false} CommonPeriod(a: nat, b: nat) returns (g: nat, p: nat, q: nat)
    requires Period(a) && Period(b) && 0 < b
    ensures 0 < g && Period(g) && a == p * g && b == q * g
    decreases a + b, b
  {
    hide Period;
    if a == 0 {
      g, p, q := b, 0, 1;
    } else if a >= b {
      PeriodDifference(a, b);
      g, p, q := CommonPeriod(a - b, b);
      assert (p + q) * g == p * g + q * g;
      p := p + q;
    } else {
      g, q, p := CommonPeriod(b, a);
    }
  }

  // A common divisor of two numbers that is a combination of them.
  lemma {:induction false} Bezout(a: nat, b: nat) returns (h: nat, p: nat, q: nat, u: int, v: int)
    requires 0 < b
    ensures 0 < h && a == p * h && b == q * h && u * a + v * b == h
    decreases a + b, b
  {
    if a == 0 {
      h, p, q, u, v := b, 0, 1, 0, 1;
    } else if a >= b {
      h, p, q, u, v := Bezout(a - b, b);
      assert (p + q) * h == p * h + q * h;
      assert u * a + (v - u) * b == u * (a - b) + v * b;
      p, v := p + q, v - u;
    } else {
      h, q, p, v, u := Bezout(b, a);
    }
  }

  predicate IsFactor(q: nat) { q == 7 || q == 31 || q == 151 }

  // The three factors of 32767 are prime.
  lemma FactorIsPrime(q: nat, x: nat, y: nat)
    requires IsFactor(q) && x * y == q
    ensures x == 1 || x == q
  {
    SmallFactor(q, x, y);
    SmallFactor(q, y, x);
    assert x > 12 && y > 12 ==> x * y >= 13 * 13;
  }

  lemma SmallFactor(q: nat, x: nat, y: nat)
    requires IsFactor(q) && x * y == q
    ensures x <= 12 ==> x == 1 || x == q
  {
    if x == 0 {} else if x == 2 {} else if x == 3 {} else if x == 4 {} else if x == 5 {} else if x == 6 {}
    else if x == 7 {} else if x == 8 {} else if x == 9 {} else if x == 10 {} else if x == 11 {} else if x == 12 {}
  }

  // A prime that divides a product divides one of its factors.
  lemma FactorDivides(q: nat, x: nat, y: nat, m: nat) returns (k: nat)
    requires IsFactor(q) && x * y == q * m
    ensures x == k * q || y == k * q
  {
    var h, p, r, u, v := Bezout(x, q);
    FactorIsPrime(q, h, r);
    if h == q {
      k := p;
    } else {
      var c := u * m + v * y;
      calc {
        y;
        (u * x + v * q) * y;
        u * (x * y) + v * q * y;
        u * (q * m) + v * q * y;
        c * q;
      }
      assert c < 0 ==> c * q < 0;
      k := c;
    }
  }

  // The orbit does not come back to its start before it closes.
  lemma NoShorterPeriod(d: nat)
    requires 0 < d < 32767
    ensures !Period(d)
  {
    if Period(d) {
      OrbitCloses();
      var g, p, q := CommonPeriod(32767, d);
      assert g <= d by {
        assert q > 0;
        assert q * g >= g;
      }
      DivisorIsNoPeriod(g, p);
    }
  }

  lemma DivisorIsNoPeriod(g: nat, p: nat)
    requires p * g == 32767 && 0 < g < 32767
    ensures !Period(g)
  {
    hide Period;
    NotAtDivisors();
    if Period(g) {
      var k := FactorDivides(7, p, g, 4681);
      if p == k * 7 {
        MultipleIs(g, k, 7, 4681);
      } else {
        var g1 := k;
        assert p * g1 == 4681 by { Cofactor(p, g1, 7, 4681); }
        k := FactorDivides(31, p, g1, 151);
        if p == k * 31 {
          MultipleIs(g, k, 31, 1057);
        } else {
          var g2 := k;
          assert p * g2 == 151 by { Cofactor(p, g2, 31, 151); }
          k := FactorDivides(151, p, g2, 1);
          if p == k * 151 {
            MultipleIs(g, k, 151, 217);
          } else {
            assert p * k == 1 by { Cofactor(p, k, 151, 1); }
            FactorOfOne(p, k);
          }
        }
      }
    }
  }

  lemma NotAtDivisors()
    ensures !Period(4681) && !Period(1057) && !Period(217)
  {
    NotAt4681();
    NotAt1057();
    NotAt217();
  }

  lemma MultipleIs(g: nat, k: nat, q: nat, m: nat)
    requires Period(g) && IsFactor(q) && k * q * g == q * m
    ensures Period(m)
  {
    Cofactor(g, k, q, m);
    PeriodMultiple(g, k);
  }

  lemma Cofactor(x: nat, y: nat, q: nat, m: nat)
    requires IsFactor(q) && (x * (y * q) == q * m || y * q * x == q * m)
    ensures x * y == m && y * x == m
  {
    assert x * (y * q) == q * (x * y) && y * q * x == q * (x * y);
  }

  lemma FactorOfOne(x: nat, y: nat)
    requires x * y == 1
    ensures x == 1
  {
    assert x > 1 && y > 0 ==> x * y >= x;
  }

  // ---------------------------------------------------------------- two flipped bits

  // If d shifts take the register 1 to itself, they do so with all that grows out of it.
  lemma OneReturns(d: nat)
    requires ShiftTimes(d, 1) == 1
    ensures Period(d)
  {
    hide ShiftTimes, Xor;
    assert Shift(1) == POLYNOMIAL by {
      XorZero(POLYNOMIAL);
    }
    assert XorWord(1, POLYNOMIAL) == Seed by {
      XorHalves(1, POLYNOMIAL);
      XorZero(0x5000);
    }
    ShiftTimesLinear(d, 1, POLYNOMIAL);
    ShiftTimesAdd(d, 1, 1);
    ShiftTimesAdd(1, d, 1);
    ShiftOnce(1);
    ShiftTimesNone(Seed);
  }

  lemma ShiftOnce(c: u16)
    ensures ShiftTimes(1, c) == Shift(c)
  {}

  lemma ShiftTimesNone(c: u16)
    ensures ShiftTimes(0, c) == c
  {}

  function Flip(differ: bool): u16 { if differ then 1 else 0 }

  // How the difference of two registers moves when they are fed.
  lemma DifferenceStep(r: u16, s: u16, a: bool, b: bool)
    ensures XorWord(FeedBit(r, a), FeedBit(s, b)) == Shift(XorWord(XorWord(r, s), Flip(a != b)))
  {
    hide Xor, Shift;
    var x, y := Flip(a), Flip(b);
    ShiftLinear(XorWord(r, x), XorWord(s, y));
    XorAssociative(r, x, Xor(s, y));
    XorAssociative(x, s, y);
    XorCommutative(x, s);
    XorAssociative(s, x, y);
    XorAssociative(r, s, Xor(x, y));
    XorZero(1);
    XorZero(0);
  }

  // Where the registers agree, one flipped bit makes them differ by Shift(1), and further
  // equal bits only shift the difference.
  lemma {:induction false} DifferenceAfterFlip(f: seq<byte>, g: seq<byte>, at: nat, n: nat)
    requires |f| == |g| && at < n <= 8 * |f|
    requires Feed(f, at) == Feed(g, at) && FrameBit(f, at) != FrameBit(g, at) && SameBits(f, g, at + 1, n)
    ensures XorWord(Feed(f, n), Feed(g, n)) == ShiftTimes(n - at, 1)
    decreases n
  {
    hide Xor, Shift, FrameBit, FeedBit, ShiftTimes, Feed;
    FeedStep(f, n - 1);
    FeedStep(g, n - 1);
    DifferenceStep(Feed(f, n - 1), Feed(g, n - 1), FrameBit(f, n - 1), FrameBit(g, n - 1));
    if n - 1 == at {
      XorZero(Feed(f, at));
      XorZero(1);
      ShiftOnce(1);
    } else {
      DifferenceAfterFlip(f, g, at, n - 1);
      var d := ShiftTimes(n - 1 - at, 1);
      XorZero(d);
      ShiftTimesAdd(1, n - 1 - at, 1);
      ShiftOnce(d);
    }
  }

  // Two accepted frames whose bits agree everywhere but in two places: the places are a
  // multiple of the period apart.
  lemma TwoFlipsNeedAPeriod(f: seq<byte>, g: seq<byte>, a: nat, b: nat)
    requires |f| == |g| >= 2 && FrameCheckPasses(f) && FrameCheckPasses(g) && a < b < 8 * |f|
    requires FrameBit(f, a) != FrameBit(g, a) && FrameBit(f, b) != FrameBit(g, b)
    requires SameBits(f, g, 0, a) && SameBits(f, g, a + 1, b) && SameBits(f, g, b + 1, 8 * |f|)
    ensures Period(b - a)
  {
    hide FrameCheckPasses, Feed, Xor, ShiftTimes, FrameBit, Period, Shift, FeedBit;
    AcceptedFeedsToZero(f);
    AcceptedFeedsToZero(g);
    SamePrefixSameRegister(f, g, a);
    SameSuffixKeepsDifference(f, g, b + 1, 8 * |f|);
    DifferenceAfterFlip(f, g, a, b);
    FeedStep(f, b);
    FeedStep(g, b);
    DifferenceStep(Feed(f, b), Feed(g, b), FrameBit(f, b), FrameBit(g, b));
    var d := ShiftTimes(b - a, 1);
    XorZero(Feed(f, b + 1));
    ShiftOfZero();
    ShiftInjective(XorWord(d, 1), 0);
    XorZeroIffEqual(d, 1);
    OneReturns(b - a);
  }

  lemma ShiftOfZero()
    ensures Shift(0) == 0
  {}

  // ---------------------------------------------------------------- the distance

  lemma {:induction false} NoDistanceSameBits(f: seq<byte>, g: seq<byte>, n: nat)
    requires |f| == |g| && n <= 8 * |f| && Distance(f, g, n) == 0
    ensures SameBits(f, g, 0, n)
  {
    hide FrameBit;
    if n > 0 {
      NoDistanceSameBits(f, g, n - 1);
    }
  }

  // The last place among the first n where two frames differ.
  lemma {:induction false} LastFlip(f: seq<byte>, g: seq<byte>, n: nat) returns (at: nat)
    requires |f| == |g| && n <= 8 * |f| && Distance(f, g, n) > 0
    ensures at < n && FrameBit(f, at) != FrameBit(g, at) && SameBits(f, g, at + 1, n)
    ensures Distance(f, g, at) == Distance(f, g, n) - 1
  {
    hide FrameBit;
    if FrameBit(f, n - 1) != FrameBit(g, n - 1) {
      at := n - 1;
    } else {
      at := LastFlip(f, g, n - 1);
    }
  }

  // Two flipped bits are detected in every frame of at most 4095 bytes; the longest frame
  // of the serial line has 256.
  lemma TwoFlipsAreDetected(f: seq<byte>, g: seq<byte>)
    requires 2 <= |f| == |g| <= 4095 && FrameCheckPasses(f) && FrameCheckPasses(g)
    ensures Distance(f, g, 8 * |f|) != 2
  {
    hide FrameCheckPasses, FrameBit, Period;
    if Distance(f, g, 8 * |f|) == 2 {
      var b := LastFlip(f, g, 8 * |f|);
      var a := LastFlip(f, g, b);
      NoDistanceSameBits(f, g, a);
      TwoFlipsNeedAPeriod(f, g, a, b);
      NoShorterPeriod(b - a);
    }
  }

  // Different accepted frames of one length differ in at least four bits, so any one, two
  // or three flipped bits are detected.
  lemma AcceptedFramesAreFourApart(f: seq<byte>, g: seq<byte>)
    requires 2 <= |f| == |g| <= 4095 && FrameCheckPasses(f) && FrameCheckPasses(g) && f != g
    ensures Distance(f, g, 8 * |f|) >= 4
  {
    hide FrameCheckPasses, FrameBit, Distance;
    OddFlipsAreDetected(f, g);
    TwoFlipsAreDetected(f, g);
    if Distance(f, g, 8 * |f|) == 0 {
      NoDistanceSameBits(f, g, 8 * |f|);
      SameBitsSameFrame(f, g);
    }
  }
}
