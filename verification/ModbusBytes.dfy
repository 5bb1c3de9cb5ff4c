// Bytes and 16-bit words as bounded naturals, with the bit operations the Modbus code
// applies to them written out: exclusive-or, reading a bit, setting a bit.
module ModbusBytes {
  import opened Common

  type u16 = x: int | 0 <= x < 0x1_0000

  // `u16::to_be_bytes`
  function BigEndian(v: u16): (r: seq<byte>)
    ensures |r| == 2 && FromBigEndian(r[0], r[1]) == v
  {
    [v / 256, v % 256]
  }

  // `u16::from_be_bytes`
  function FromBigEndian(hi: byte, lo: byte): u16 {
    256 * hi + lo
  }

  function Pow2(n: nat): (p: nat)
    ensures p > 0
  {
    if n == 0 then 1 else 2 * Pow2(n - 1)
  }

  // Bit `k` of a number, bit 0 the least significant.
  function Bit(x: nat, k: nat): bool {
    if k == 0 then x % 2 == 1 else Bit(x / 2, k - 1)
  }

  // `x | (1 << k)`
  function SetBit(x: nat, k: nat): nat {
    if k == 0 then x / 2 * 2 + 1 else 2 * SetBit(x / 2, k - 1) + x % 2
  }

  lemma {:induction false} SetBitMeaning(x: nat, k: nat, j: nat)
    ensures Bit(SetBit(x, k), j) == (j == k || Bit(x, j))
  {
    if k > 0 && j > 0 {
      SetBitMeaning(x / 2, k - 1, j - 1);
    }
  }

  lemma {:induction false} SetBitFits(x: nat, k: nat, n: nat)
    requires x < Pow2(n) && k < n
    ensures SetBit(x, k) < Pow2(n)
  {
    if k > 0 {
      SetBitFits(x / 2, k - 1, n - 1);
    }
  }

  lemma {:induction false} BitOfZero(k: nat)
    ensures !Bit(0, k)
  {
    if k > 0 {
      BitOfZero(k - 1);
    }
  }

  lemma ByteLimit()
    ensures Pow2(8) == 256
  {
    assert Pow2(4) == 16;
  }

  // Setting a bit of a byte gives a byte.
  function SetByteBit(b: byte, k: nat): (r: byte)
    requires k < 8
    ensures forall j: nat :: Bit(r, j) == (j == k || Bit(b, j))
  {
    ByteLimit();
    SetBitFits(b, k, 8);
    assert forall j: nat :: Bit(SetBit(b, k), j) == (j == k || Bit(b, j)) by {
      forall j: nat ensures Bit(SetBit(b, k), j) == (j == k || Bit(b, j)) {
        SetBitMeaning(b, k, j);
      }
    }
    SetBit(b, k)
  }

  // ---------------------------------------------------------------- exclusive-or

  function Xor(x: nat, y: nat): nat
    decreases x + y
  {
    if x == 0 && y == 0 then 0
    else 2 * Xor(x / 2, y / 2) + (if x % 2 == y % 2 then 0 else 1)
  }

  lemma {:induction false} XorFits(x: nat, y: nat, n: nat)
    requires x < Pow2(n) && y < Pow2(n)
    ensures Xor(x, y) < Pow2(n)
    decreases n
  {
    if n > 0 {
      XorFits(x / 2, y / 2, n - 1);
    }
  }

  lemma {:induction false} XorKeepsTopBit(x: nat, y: nat, n: nat)
    requires x < Pow2(n) <= y < Pow2(n + 1)
    ensures Pow2(n) <= Xor(x, y)
    decreases n
  {
    if n > 0 {
      XorKeepsTopBit(x / 2, y / 2, n - 1);
    }
  }

  lemma {:induction false} XorAssociative(x: nat, y: nat, z: nat)
    ensures Xor(Xor(x, y), z) == Xor(x, Xor(y, z))
    decreases x + y + z
  {
    if x + y + z > 0 {
      XorAssociative(x / 2, y / 2, z / 2);
    }
  }

  lemma {:induction false} XorCommutative(x: nat, y: nat)
    ensures Xor(x, y) == Xor(y, x)
    decreases x + y
  {
    if x + y > 0 {
      XorCommutative(x / 2, y / 2);
    }
  }

  lemma {:induction false} XorZero(x: nat)
    ensures Xor(x, 0) == x && Xor(0, x) == x
    ensures Xor(x, x) == 0
  {
    if x > 0 {
      XorZero(x / 2);
    }
  }

  lemma XorTwice(x: nat, y: nat)
    ensures Xor(x, Xor(x, y)) == y
  {
    XorAssociative(x, x, y);
    XorZero(x);
    XorZero(y);
  }

  lemma XorCancels(x: nat, y: nat, z: nat)
    requires Xor(x, y) == Xor(x, z)
    ensures y == z
  {
    XorTwice(x, y);
    XorTwice(x, z);
  }

  lemma XorZeroIffEqual(x: nat, y: nat)
    ensures Xor(x, y) == 0 <==> x == y
  {
    XorZero(x);
    if Xor(x, y) == 0 {
      XorCancels(x, y, x);
    }
  }

  // Exclusive-or of two words is a word.
  function XorWord(x: u16, y: u16): (r: u16)
    ensures r == Xor(x, y)
  {
    WordLimit();
    XorFits(x, y, 16);
    Xor(x, y)
  }

  lemma WordLimit()
    ensures Pow2(15) == 0x8000 && Pow2(16) == 0x1_0000
  {
    assert Pow2(5) == 32;
    assert Pow2(10) == 1024;
  }
}
