// CRC-16 of Modbus over serial line (src-tauri/src/modbus.rs, `modbus_crc16`), and what
// the frame check "CRC of the prefix equals the last two bytes, little-endian" detects.
//
// The program feeds the register a byte at a time. The proofs see the same register
// fed one bit at a time, least significant bit first, because that is where the
// algebra is simple: one shift is injective, linear over exclusive-or and keeps parity.
module ModbusCrc {
  import opened Common
  import opened ModbusBytes

  const INITIAL: u16 := 0xffff
  const POLYNOMIAL: u16 := 0xa001
  const BYTE_BITS: nat := 8

  // One step of the inner loop.
  function Shift(c: u16): u16 {
    if c % 2 == 1 then XorWord(c / 2, POLYNOMIAL) else c / 2
  }

  function ShiftTimes(n: nat, c: u16): u16
    decreases n
  {
    if n == 0 then c else ShiftTimes(n - 1, Shift(c))
  }

  // The register after the first `n` bytes.
  function Register(data: seq<byte>, n: nat): u16
    requires n <= |data|
  {
    if n == 0 then INITIAL else ShiftTimes(BYTE_BITS, XorWord(Register(data, n - 1), data[n - 1]))
  }

  function Crc(data: seq<byte>): u16 {
    Register(data, |data|)
  }

  method ModbusCrc16(data: seq<byte>) returns (crc: u16)
    ensures crc == Crc(data)
  {
    crc := INITIAL;
    for i := 0 to |data|
      invariant crc == Register(data, i)
    {
      crc := XorWord(crc, data[i]);
      ghost var fed := crc;
      for k := 0 to BYTE_BITS
        invariant ShiftTimes(BYTE_BITS - k, crc) == ShiftTimes(BYTE_BITS, fed)
      {
        crc := Shift(crc);
      }
    }
  }

  // `u16::to_le_bytes`
  function LittleEndian(c: u16): seq<byte> {
    [c % 256, c / 256]
  }

  // `u16::from_le_bytes`
  function FromLittleEndian(lo: byte, hi: byte): u16 {
    256 * hi + lo
  }

  // The check both receivers make before they look inside a frame.
  predicate FrameCheckPasses(frame: seq<byte>)
    requires |frame| >= 2
  {
    FromLittleEndian(frame[|frame| - 2], frame[|frame| - 1]) == Register(frame, |frame| - 2)
  }

  // The register depends on the bytes it was fed and on nothing after them.
  lemma {:induction false} RegisterOfPrefix(data: seq<byte>, rest: seq<byte>, n: nat)
    requires n <= |data|
    ensures Register(data + rest, n) == Register(data, n)
  {
    hide ShiftTimes, XorWord;
    if n > 0 {
      RegisterOfPrefix(data, rest, n - 1);
    }
  }

  // What the sender appends is what the check wants.
  lemma AppendedCrcPasses(body: seq<byte>)
    ensures FrameCheckPasses(body + LittleEndian(Crc(body)))
  {
    hide ShiftTimes, XorWord;
    RegisterOfPrefix(body, LittleEndian(Crc(body)), |body|);
  }

  // ---------------------------------------------------------------- algebra of one shift

  lemma ShiftInjective(x: u16, y: u16)
    requires Shift(x) == Shift(y)
    ensures x == y
  {
    WordLimit();
    XorKeepsTopBit(x / 2, POLYNOMIAL, 15);
    XorKeepsTopBit(y / 2, POLYNOMIAL, 15);
    if x % 2 == 1 && y % 2 == 1 {
      XorCommutative(x / 2, POLYNOMIAL);
      XorCommutative(y / 2, POLYNOMIAL);
      XorCancels(POLYNOMIAL, x / 2, y / 2);
    }
  }

  lemma XorHalves(x: nat, y: nat)
    ensures Xor(x, y) / 2 == Xor(x / 2, y / 2)
    ensures Xor(x, y) % 2 == if x % 2 == y % 2 then 0 else 1
  {}

  lemma XorWithMark(h: nat, k: nat, p: nat)
    ensures Xor(Xor(h, p), k) == Xor(Xor(h, k), p)
    ensures Xor(h, Xor(k, p)) == Xor(Xor(h, k), p)
    ensures Xor(Xor(h, p), Xor(k, p)) == Xor(h, k)
  {
    hide Xor;
    XorAssociative(h, k, p);
    XorCommutative(k, p);
    XorAssociative(h, p, k);
    XorAssociative(h, p, Xor(k, p));
    XorTwice(p, k);
  }

  lemma ShiftLinear(x: u16, y: u16)
    ensures Shift(XorWord(x, y)) == XorWord(Shift(x), Shift(y))
  {
    hide Xor;
    XorHalves(x, y);
    XorWithMark(x / 2, y / 2, POLYNOMIAL);
  }

  lemma {:induction false} ShiftTimesInjective(n: nat, x: u16, y: u16)
    requires ShiftTimes(n, x) == ShiftTimes(n, y)
    ensures x == y
    decreases n
  {
    if n > 0 {
      ShiftTimesInjective(n - 1, Shift(x), Shift(y));
      ShiftInjective(x, y);
    }
  }

  lemma {:induction false} ShiftTimesZero(n: nat)
    ensures ShiftTimes(n, 0) == 0
  {
    if n > 0 {
      ShiftTimesZero(n - 1);
    }
  }

  // ---------------------------------------------------------------- feeding bits

  function FeedBit(r: u16, b: bool): u16 {
    Shift(XorWord(r, if b then 1 else 0))
  }

  // Bit `i` of a frame, in the order the bits travel on the serial line.
  function FrameBit(data: seq<byte>, i: nat): bool
    requires i < 8 * |data|
  {
    Bit(data[i / 8], i % 8)
  }

  // The register after the first `n` bits.
  function Feed(data: seq<byte>, n: nat): u16
    requires n <= 8 * |data|
  {
    if n == 0 then INITIAL else FeedBit(Feed(data, n - 1), FrameBit(data, n - 1))
  }

  // The `k` bits from position `n`, read as a number, the first bit least significant.
  function Window(data: seq<byte>, n: nat, k: nat): (w: nat)
    requires n + k <= 8 * |data|
    ensures w < Pow2(k)
    decreases k
  {
    if k == 0 then 0 else 2 * Window(data, n + 1, k - 1) + (if FrameBit(data, n) then 1 else 0)
  }

  lemma {:induction false} PowMonotone(m: nat, n: nat)
    requires m <= n
    ensures Pow2(m) <= Pow2(n)
    decreases n
  {
    if m < n {
      PowMonotone(m, n - 1);
    }
  }

  lemma PowBelowWord(k: nat)
    requires k <= 16
    ensures Pow2(k) <= 0x1_0000
    ensures k <= 15 ==> Pow2(k) <= 0x8000
  {
    WordLimit();
    PowMonotone(k, 16);
    if k <= 15 {
      PowMonotone(k, 15);
    }
  }

  // Feeding the low bit of a number leaves the rest of the number to feed.
  lemma ShiftConsumesBit(r: u16, w: u16)
    ensures Shift(XorWord(r, w)) == XorWord(FeedBit(r, w % 2 == 1), w / 2)
  {
    var c: u16 := w % 2;
    assert Xor(c, 2 * (w / 2)) == w by {
      XorZero(w / 2);
    }
    XorAssociative(r, c, 2 * (w / 2));
    ShiftLinear(XorWord(r, c), 2 * (w / 2));
  }

  lemma WindowStep(data: seq<byte>, n: nat, k: nat)
    requires 0 < k && n + k <= 8 * |data|
    ensures (Window(data, n, k) % 2 == 1) == FrameBit(data, n)
    ensures Window(data, n, k) / 2 == Window(data, n + 1, k - 1)
  {}

  lemma FeedStep(data: seq<byte>, n: nat)
    requires n < 8 * |data|
    ensures Feed(data, n + 1) == FeedBit(Feed(data, n), FrameBit(data, n))
  {}

  lemma ShiftTimesStep(k: nat, c: u16)
    requires 0 < k
    ensures ShiftTimes(k, c) == ShiftTimes(k - 1, Shift(c))
  {}

  lemma FeedNothing(data: seq<byte>, n: nat)
    requires n <= 8 * |data|
    ensures Feed(data, n) == ShiftTimes(0, XorWord(Feed(data, n), Window(data, n, 0)))
  {
    XorZero(Feed(data, n));
  }

  // Feeding up to sixteen bits is one exclusive-or followed by that many shifts.
  lemma {:induction false} FeedIsWord(data: seq<byte>, n: nat, k: nat)
    requires k <= 16 && n + k <= 8 * |data|
    requires Window(data, n, k) < 0x1_0000
    ensures Feed(data, n + k) == ShiftTimes(k, XorWord(Feed(data, n), Window(data, n, k)))
    decreases k
  {
    hide *;
    if k == 0 {
      FeedNothing(data, n);
    } else {
      WindowStep(data, n, k);
      FeedStep(data, n);
      var r, w := Feed(data, n), Window(data, n, k);
      FeedIsWord(data, n + 1, k - 1);
      ShiftConsumesBit(r, w);
      ShiftTimesStep(k, XorWord(r, w));
    }
  }

  lemma {:induction false} WindowOfNumber(data: seq<byte>, n: nat, k: nat, x: nat)
    requires n + k <= 8 * |data| && x < Pow2(k)
    requires forall j: nat :: j < k ==> FrameBit(data, n + j) == Bit(x, j)
    ensures Window(data, n, k) == x
    decreases k
  {
    if k > 0 {
      assert FrameBit(data, n + 0) == Bit(x, 0);
      forall j: nat | j < k - 1 ensures FrameBit(data, n + 1 + j) == Bit(x / 2, j) {
        assert FrameBit(data, n + (j + 1)) == Bit(x, j + 1);
      }
      WindowOfNumber(data, n + 1, k - 1, x / 2);
    }
  }

  lemma WindowOfByte(data: seq<byte>, i: nat)
    requires i < |data|
    ensures Window(data, 8 * i, 8) == data[i]
  {
    hide Window;
    ByteLimit();
    forall j: nat | j < 8 ensures FrameBit(data, 8 * i + j) == Bit(data[i], j) {
      assert (8 * i + j) / 8 == i && (8 * i + j) % 8 == j;
    }
    WindowOfNumber(data, 8 * i, 8, data[i]);
  }

  lemma RegisterStep(data: seq<byte>, n: nat)
    requires n < |data|
    ensures Register(data, n + 1) == ShiftTimes(8, XorWord(Register(data, n), data[n]))
  {
    hide ShiftTimes, XorWord;
  }

  lemma RegisterStart(data: seq<byte>)
    ensures Register(data, 0) == Feed(data, 0)
  {}

  // The byte-wise register of the program is the bit-wise register of the proofs.
  lemma {:induction false} RegisterIsFeed(data: seq<byte>, n: nat)
    requires n <= |data|
    ensures Register(data, n) == Feed(data, 8 * n)
  {
    hide *;
    if n == 0 {
      RegisterStart(data);
    } else {
      RegisterIsFeed(data, n - 1);
      RegisterStep(data, n - 1);
      WindowOfByte(data, n - 1);
      FeedIsWord(data, 8 * (n - 1), 8);
    }
  }

  // ---------------------------------------------------------------- what the check accepts

  lemma WindowOfTwoBytes(data: seq<byte>, i: nat)
    requires i + 2 <= |data|
    ensures Window(data, 8 * i, 16) == FromLittleEndian(data[i], data[i + 1])
  {
    hide Window;
    WindowOfByte(data, i);
    WindowOfByte(data, i + 1);
    ByteLimit();
    WindowSplit(data, 8 * i, 8, 8);
  }

  lemma {:induction false} WindowSplit(data: seq<byte>, n: nat, k: nat, m: nat)
    requires n + k + m <= 8 * |data|
    ensures Window(data, n, k + m) == Window(data, n, k) + Pow2(k) * Window(data, n + k, m)
    decreases k
  {
    hide *;
    if k == 0 {
      WindowEmpty(data, n, m);
    } else {
      WindowSplit(data, n + 1, k - 1, m);
      WindowSplitStep(data, n, k, m);
    }
  }

  lemma WindowEmpty(data: seq<byte>, n: nat, m: nat)
    requires n + m <= 8 * |data|
    ensures Window(data, n, m) == Window(data, n, 0) + Pow2(0) * Window(data, n, m)
  {}

  lemma WindowSplitStep(data: seq<byte>, n: nat, k: nat, m: nat)
    requires 0 < k && n + k + m <= 8 * |data|
    requires Window(data, n + 1, k - 1 + m) == Window(data, n + 1, k - 1) + Pow2(k - 1) * Window(data, n + k, m)
    ensures Window(data, n, k + m) == Window(data, n, k) + Pow2(k) * Window(data, n + k, m)
  {
    hide Window, FrameBit;
    WindowStep(data, n, k);
    WindowStep(data, n, k + m);
    DoubledProduct(Pow2(k - 1), Window(data, n + k, m));
  }

  lemma DoubledProduct(p: nat, v: nat)
    ensures 2 * p * v == 2 * (p * v)
  {}

  // The register over a whole frame, in terms of the CRC of its prefix.
  lemma RegisterOfFrame(frame: seq<byte>)
    requires |frame| >= 2
    ensures var n := |frame| - 2;
            Crc(frame) == ShiftTimes(16, XorWord(Register(frame, n), FromLittleEndian(frame[n], frame[n + 1])))
  {
    hide Feed, ShiftTimes, XorWord, Window, Register;
    var n := |frame| - 2;
    RegisterIsFeed(frame, |frame|);
    RegisterIsFeed(frame, n);
    WindowOfTwoBytes(frame, n);
    FeedIsWord(frame, 8 * n, 16);
  }

  // A frame passes the check exactly when the register over the whole frame is zero.
  lemma CheckPassesIffRegisterIsZero(frame: seq<byte>)
    requires |frame| >= 2
    ensures FrameCheckPasses(frame) <==> Crc(frame) == 0
  {
    var n := |frame| - 2;
    var sent := FromLittleEndian(frame[n], frame[n + 1]);
    hide ShiftTimes, Register;
    RegisterOfFrame(frame);
    ShiftTimesZero(16);
    if Crc(frame) == 0 {
      ShiftTimesInjective(16, XorWord(Register(frame, n), sent), 0);
    }
    XorZeroIffEqual(Register(frame, n), sent);
  }

  lemma AcceptedFeedsToZero(frame: seq<byte>)
    requires |frame| >= 2 && FrameCheckPasses(frame)
    ensures Feed(frame, 8 * |frame|) == 0
  {
    hide Feed, Register, FrameCheckPasses;
    CheckPassesIffRegisterIsZero(frame);
    RegisterIsFeed(frame, |frame|);
  }

  // ---------------------------------------------------------------- burst errors

  predicate SameBits(f: seq<byte>, g: seq<byte>, from: nat, to: nat)
    requires |f| == |g| && to <= 8 * |f|
  {
    forall i: nat :: from <= i < to ==> FrameBit(f, i) == FrameBit(g, i)
  }

  lemma {:induction false} SamePrefixSameRegister(f: seq<byte>, g: seq<byte>, n: nat)
    requires |f| == |g| && n <= 8 * |f| && SameBits(f, g, 0, n)
    ensures Feed(f, n) == Feed(g, n)
  {
    hide FeedBit, FrameBit;
    if n > 0 {
      SamePrefixSameRegister(f, g, n - 1);
    }
  }

  // Equal bits cannot hide a difference that is already in the register.
  lemma {:induction false} SameSuffixKeepsDifference(f: seq<byte>, g: seq<byte>, n: nat, m: nat)
    requires |f| == |g| && n <= m <= 8 * |f| && SameBits(f, g, n, m)
    requires Feed(f, m) == Feed(g, m)
    ensures Feed(f, n) == Feed(g, n)
    decreases m
  {
    hide FrameBit, Shift, XorWord;
    if n < m {
      var b: u16 := if FrameBit(f, m - 1) then 1 else 0;
      var r, s := Feed(f, m - 1), Feed(g, m - 1);
      ShiftInjective(XorWord(r, b), XorWord(s, b));
      XorCommutative(r, b);
      XorCommutative(s, b);
      XorCancels(b, r, s);
      SameSuffixKeepsDifference(f, g, n, m - 1);
    }
  }

  lemma {:induction false} SameWindowSameBits(f: seq<byte>, g: seq<byte>, n: nat, k: nat)
    requires |f| == |g| && n + k <= 8 * |f|
    requires Window(f, n, k) == Window(g, n, k)
    ensures SameBits(f, g, n, n + k)
    decreases k
  {
    hide FrameBit;
    if k > 0 {
      SameWindowSameBits(f, g, n + 1, k - 1);
    }
  }

  lemma SameBitsSameFrame(f: seq<byte>, g: seq<byte>)
    requires |f| == |g| && SameBits(f, g, 0, 8 * |f|)
    ensures f == g
  {
    forall i | 0 <= i < |f| ensures f[i] == g[i] {
      ByteLimit();
      forall j: nat | j < 8 ensures FrameBit(f, 8 * i + j) == Bit(g[i], j) {
        assert (8 * i + j) / 8 == i && (8 * i + j) % 8 == j;
        assert FrameBit(f, 8 * i + j) == FrameBit(g, 8 * i + j);
      }
      WindowOfNumber(f, 8 * i, 8, g[i]);
      WindowOfByte(f, i);
    }
  }

  // Every burst of at most sixteen bits is detected, wherever it falls in the frame:
  // two accepted frames whose bits agree outside such a window are the same frame.
  lemma BurstIsDetected(f: seq<byte>, g: seq<byte>, at: nat, width: nat)
    requires |f| == |g| >= 2
    requires FrameCheckPasses(f) && FrameCheckPasses(g)
    requires width <= 16 && at + width <= 8 * |f|
    requires SameBits(f, g, 0, at) && SameBits(f, g, at + width, 8 * |f|)
    ensures f == g
  {
    hide FrameCheckPasses, Feed, XorWord, ShiftTimes, FrameBit, Window;
    AcceptedFeedsToZero(f);
    AcceptedFeedsToZero(g);
    SamePrefixSameRegister(f, g, at);
    SameSuffixKeepsDifference(f, g, at + width, 8 * |f|);
    PowBelowWord(width);
    FeedIsWord(f, at, width);
    FeedIsWord(g, at, width);
    var r, v, w := Feed(f, at), Window(f, at, width), Window(g, at, width);
    ShiftTimesInjective(width, XorWord(r, v), XorWord(r, w));
    XorCancels(r, v, w);
    SameWindowSameBits(f, g, at, width);
    SameBitsSameFrame(f, g);
  }

  // The case the receivers meet most: two accepted frames of one length that agree
  // outside two adjacent bytes (or inside one of them) are the same frame.
  lemma AdjacentBytesAreDetected(f: seq<byte>, g: seq<byte>, at: nat)
    requires |f| == |g| && at + 2 <= |f|
    requires FrameCheckPasses(f) && FrameCheckPasses(g)
    requires forall i :: 0 <= i < |f| && i != at && i != at + 1 ==> f[i] == g[i]
    ensures f == g
  {
    hide FrameCheckPasses, Bit;
    BurstIsDetected(f, g, 8 * at, 16);
  }

  // ---------------------------------------------------------------- odd numbers of flips

  function OddParity(x: nat): bool {
    if x == 0 then false else (x % 2 == 1) != OddParity(x / 2)
  }

  lemma {:induction false} ParityXor(x: nat, y: nat)
    ensures OddParity(Xor(x, y)) == (OddParity(x) != OddParity(y))
    decreases x + y
  {
    if x + y > 0 {
      ParityXor(x / 2, y / 2);
    }
  }

  // The polynomial has a factor x + 1: a shift keeps the parity of the register.
  lemma ShiftKeepsParity(x: u16)
    ensures OddParity(Shift(x)) == OddParity(x)
  {
    ParityXor(x / 2, POLYNOMIAL);
    assert OddParity(0xa001);
  }

  // Whether the first `n` bits hold an odd number of ones.
  function OddOnes(data: seq<byte>, n: nat): bool
    requires n <= 8 * |data|
  {
    if n == 0 then false else OddOnes(data, n - 1) != FrameBit(data, n - 1)
  }

  lemma {:induction false} FeedParity(data: seq<byte>, n: nat)
    requires n <= 8 * |data|
    ensures OddParity(Feed(data, n)) == OddOnes(data, n)
  {
    if n == 0 {
      assert !OddParity(0xffff);
    } else {
      var b: u16 := if FrameBit(data, n - 1) then 1 else 0;
      FeedParity(data, n - 1);
      ShiftKeepsParity(XorWord(Feed(data, n - 1), b));
      ParityXor(Feed(data, n - 1), b);
      assert OddParity(1);
    }
  }

  // The number of positions among the first `n` bits where two frames differ.
  function Distance(f: seq<byte>, g: seq<byte>, n: nat): nat
    requires |f| == |g| && n <= 8 * |f|
  {
    if n == 0 then 0
    else Distance(f, g, n - 1) + (if FrameBit(f, n - 1) == FrameBit(g, n - 1) then 0 else 1)
  }

  lemma {:induction false} DistanceParity(f: seq<byte>, g: seq<byte>, n: nat)
    requires |f| == |g| && n <= 8 * |f|
    ensures (Distance(f, g, n) % 2 == 1) == (OddOnes(f, n) != OddOnes(g, n))
  {
    if n > 0 {
      DistanceParity(f, g, n - 1);
    }
  }

  // Every odd number of flipped bits is detected, however the flips are spread.
  lemma OddFlipsAreDetected(f: seq<byte>, g: seq<byte>)
    requires |f| == |g| >= 2
    requires FrameCheckPasses(f) && FrameCheckPasses(g)
    ensures Distance(f, g, 8 * |f|) % 2 == 0
  {
    hide FrameCheckPasses, Feed, FrameBit;
    AcceptedFeedsToZero(f);
    AcceptedFeedsToZero(g);
    FeedParity(f, 8 * |f|);
    FeedParity(g, 8 * |f|);
    DistanceParity(f, g, 8 * |f|);
  }
}
