// How Modbus puts bits and words into bytes: coils eight to a byte, least significant
// bit first, and registers as two bytes, most significant byte first.
module ModbusPacking {
  import opened Common
  import opened ModbusBytes

  // `n.div_ceil(8)`
  function BytesForBits(n: nat): nat { (n + 7) / 8 }

  // Bit `8 * j + k` of the list, false past its end.
  predicate BitInByte(bits: seq<bool>, j: nat, k: nat) {
    8 * j + k < |bits| && bits[8 * j + k]
  }

  // Byte string `data` holds exactly the listed bits and zero padding.
  predicate Packs(data: seq<byte>, bits: seq<bool>) {
    && |data| == BytesForBits(|bits|)
    && forall j: nat, k: nat :: j < |data| && k < 8 ==> Bit(data[j], k) == BitInByte(bits, j, k)
  }

  function Unpack(data: seq<byte>, n: nat): (bits: seq<bool>)
    requires BytesForBits(n) <= |data|
    ensures |bits| == n
  {
    seq(n, i requires 0 <= i < n => Bit(data[i / 8], i % 8))
  }

  // Reading back what was packed gives the bits.
  lemma UnpackOfPacked(data: seq<byte>, bits: seq<bool>)
    requires Packs(data, bits)
    ensures Unpack(data, |bits|) == bits
  {
    var got := Unpack(data, |bits|);
    forall i | 0 <= i < |bits| ensures got[i] == bits[i] {
      var j, k := i / 8, i % 8;
      assert Bit(data[j], k) == BitInByte(bits, j, k);
    }
  }

  lemma {:induction false} SameBitsSameNumber(x: nat, y: nat, n: nat)
    requires x < Pow2(n) && y < Pow2(n)
    requires forall k: nat :: k < n ==> Bit(x, k) == Bit(y, k)
    ensures x == y
    decreases n
  {
    if n > 0 {
      assert Bit(x, 0) == Bit(y, 0);
      forall k: nat | k < n - 1 ensures Bit(x / 2, k) == Bit(y / 2, k) {
        assert Bit(x, k + 1) == Bit(y, k + 1);
      }
      SameBitsSameNumber(x / 2, y / 2, n - 1);
    }
  }

  // There is only one way to pack a list of bits.
  lemma PackingUnique(a: seq<byte>, b: seq<byte>, bits: seq<bool>)
    requires Packs(a, bits) && Packs(b, bits)
    ensures a == b
  {
    forall j | 0 <= j < |a| ensures a[j] == b[j] {
      ByteLimit();
      forall k: nat | k < 8 ensures Bit(a[j], k) == Bit(b[j], k) {
        assert Bit(a[j], k) == BitInByte(bits, j, k);
      }
      SameBitsSameNumber(a[j], b[j], 8);
    }
  }

  // The number whose bits are the `n` list positions from `at` on.
  function PackedNumber(bits: seq<bool>, at: nat, n: nat): (x: nat)
    ensures x < Pow2(n)
    decreases n
  {
    if n == 0 then 0
    else 2 * PackedNumber(bits, at + 1, n - 1) + (if at < |bits| && bits[at] then 1 else 0)
  }

  lemma {:induction false} PackedNumberBits(bits: seq<bool>, at: nat, n: nat, k: nat)
    requires k < n
    ensures Bit(PackedNumber(bits, at, n), k) == (at + k < |bits| && bits[at + k])
    decreases n
  {
    if k > 0 {
      PackedNumberBits(bits, at + 1, n - 1, k - 1);
    }
  }

  function Pack(bits: seq<bool>): (data: seq<byte>)
    ensures Packs(data, bits)
  {
    ByteLimit();
    var n := BytesForBits(|bits|);
    var data := seq(n, j requires 0 <= j < n => PackedByte(bits, 8 * j));
    assert forall j: nat, k: nat :: j < |data| && k < 8 ==> Bit(data[j], k) == BitInByte(bits, j, k) by {
      forall j: nat, k: nat | j < |data| && k < 8 ensures Bit(data[j], k) == BitInByte(bits, j, k) {
        PackedNumberBits(bits, 8 * j, 8, k);
      }
    }
    data
  }

  function PackedByte(bits: seq<bool>, at: nat): (b: byte)
    ensures b == PackedNumber(bits, at, 8)
  {
    ByteLimit();
    PackedNumber(bits, at, 8)
  }

  // The loop both sides use: a zeroed buffer, then one `|=` for each true bit.
  method PackBits(bits: seq<bool>) returns (data: seq<byte>)
    ensures data == Pack(bits)
  {
    data := seq(BytesForBits(|bits|), j => 0);
    forall j: nat, k: nat | j < |data| && k < 8 ensures !Bit(data[j], k) {
      BitOfZero(k);
    }
    for i := 0 to |bits|
      invariant |data| == BytesForBits(|bits|)
      invariant forall j: nat, k: nat :: j < |data| && k < 8 ==>
                  Bit(data[j], k) == (8 * j + k < i && BitInByte(bits, j, k))
    {
      if bits[i] {
        data := data[i / 8 := SetByteBit(data[i / 8], i % 8)];
      }
    }
    PackingUnique(data, Pack(bits), bits);
  }

  // ---------------------------------------------------------------- words

  function WordBytes(words: seq<u16>): (data: seq<byte>)
    ensures |data| == 2 * |words|
  {
    seq(2 * |words|, i requires 0 <= i < 2 * |words| =>
      if i % 2 == 0 then words[i / 2] / 256 else words[i / 2] % 256)
  }

  // `chunks_exact(2)` decoded big-endian.
  function WordsOf(data: seq<byte>): (words: seq<u16>)
    ensures |words| == |data| / 2
  {
    seq(|data| / 2, i requires 0 <= i < |data| / 2 => FromBigEndian(data[2 * i], data[2 * i + 1]))
  }

  lemma WordsRoundTrip(words: seq<u16>)
    ensures WordsOf(WordBytes(words)) == words
  {}

  lemma BytesRoundTrip(data: seq<byte>)
    requires |data| % 2 == 0
    ensures WordBytes(WordsOf(data)) == data
  {
    var back := WordBytes(WordsOf(data));
    forall i | 0 <= i < |data| ensures back[i] == data[i] {
      var w := FromBigEndian(data[2 * (i / 2)], data[2 * (i / 2) + 1]);
      assert WordsOf(data)[i / 2] == w;
    }
  }

  method AppendWords(prefix: seq<byte>, words: seq<u16>) returns (data: seq<byte>)
    ensures data == prefix + WordBytes(words)
  {
    data := prefix;
    for i := 0 to |words|
      invariant data == prefix + WordBytes(words)[..2 * i]
    {
      data := data + BigEndian(words[i]);
      assert WordBytes(words)[..2 * i + 2] == WordBytes(words)[..2 * i] + BigEndian(words[i]);
    }
  }
}
