/**
 AES-CTR at an offset (src/crypto.py; the counter mode of section 6.5 of NIST SP 800-38A).

 The block cipher is a parameter: `aes` takes a counter value to the sixteen bytes it encrypts to.
 */
module CtrCipher {
  import opened Bytes

  const BLOCK_SIZE: nat := 16
  const NONCE_SIZE: nat := 16
  const COUNTER_MODULO: nat := 0x1_00000000_00000000_00000000_00000000

  type Block = b: ByteString | |b| == BLOCK_SIZE
    witness [0, 0, 0, 0, 0, 0, 0, 0, 0, 0, 0, 0, 0, 0, 0, 0]

  type Cipher = nat -> Block

  // Exclusive or of the low `bits` bits.
  function XorBits(a: nat, b: nat, bits: nat): (x: nat)
    ensures x < Pow2(bits)
  {
    if bits == 0 then 0 else 2 * XorBits(a / 2, b / 2, bits - 1) + if a % 2 == b % 2 then 0 else 1
  }

  function Pow2(bits: nat): (p: nat)
    ensures p >= 1
  {
    if bits == 0 then 1 else 2 * Pow2(bits - 1)
  }

  function Xor(a: Byte, b: Byte): Byte {
    assert Pow2(8) == 256;
    XorBits(a, b, 8)
  }

  function Bit(n: nat, k: nat): nat { if k == 0 then n % 2 else Bit(n / 2, k - 1) }

  // Bit by bit: one where the two differ.
  lemma {:induction false} XorBitsAt(a: nat, b: nat, bits: nat, k: nat)
    requires k < bits
    ensures Bit(XorBits(a, b, bits), k) == if Bit(a, k) == Bit(b, k) then 0 else 1
    decreases k
  {
    var x := XorBits(a, b, bits);
    assert x / 2 == XorBits(a / 2, b / 2, bits - 1) && x % 2 == if a % 2 == b % 2 then 0 else 1;
    if k > 0 { XorBitsAt(a / 2, b / 2, bits - 1, k - 1); }
  }

  lemma {:induction false} XorBitsInvolution(a: nat, b: nat, bits: nat)
    requires a < Pow2(bits)
    ensures XorBits(XorBits(a, b, bits), b, bits) == a
  {
    if bits > 0 {
      XorBitsInvolution(a / 2, b / 2, bits - 1);
      assert XorBits(a, b, bits) / 2 == XorBits(a / 2, b / 2, bits - 1);
    }
  }

  lemma XorInvolution(a: Byte, b: Byte)
    ensures Xor(Xor(a, b), b) == a
  {
    assert Pow2(8) == 256;
    XorBitsInvolution(a, b, 8);
  }

  // `_counter_block`, as the number the sixteen bytes spell.
  function CounterBlock(nonce: ByteString, blockIndex: nat): (c: nat)
    ensures c < COUNTER_MODULO
  {
    (FromBigEndian(nonce) + blockIndex) % COUNTER_MODULO
  }

  // Byte `i` of the key stream a CTR context started at `counter` produces; the counter wraps.
  function KeyStream(aes: Cipher, counter: nat, i: nat): Byte {
    aes((counter + i / BLOCK_SIZE) % COUNTER_MODULO)[i % BLOCK_SIZE]
  }

  // One `update` of a fresh CTR context.
  function Update(aes: Cipher, counter: nat, data: ByteString): (r: ByteString)
    ensures |r| == |data|
  {
    if data == [] then [] else
    Update(aes, counter, data[..|data| - 1]) + [Xor(data[|data| - 1], KeyStream(aes, counter, |data| - 1))]
  }

  lemma {:induction false} UpdateAt(aes: Cipher, counter: nat, data: ByteString, i: nat)
    requires i < |data|
    ensures Update(aes, counter, data)[i] == Xor(data[i], KeyStream(aes, counter, i))
  {
    if i < |data| - 1 {
      UpdateAt(aes, counter, data[..|data| - 1], i);
    }
  }

  function Filler(n: nat): (r: ByteString)
    ensures |r| == n
  {
    seq(n, _ => 0)
  }

  // `transform`: encrypt or decrypt bytes that begin `offset` bytes into the chunk.
  function Transform(aes: Cipher, nonce: ByteString, data: ByteString, offset: nat): (r: ByteString)
    ensures |r| == |data|
  {
    if data == [] then [] else
    var blockIndex, skew := offset / BLOCK_SIZE, offset % BLOCK_SIZE;
    Update(aes, CounterBlock(nonce, blockIndex), Filler(skew) + data)[skew..]
  }

  // What a chunk's byte at `position` is combined with.
  function PositionByte(aes: Cipher, nonce: ByteString, position: nat): Byte {
    KeyStream(aes, CounterBlock(nonce, 0), position)
  }

  lemma StreamAligned(n: nat, offset: nat, i: nat)
    ensures ((n + offset / 16) % COUNTER_MODULO + (offset % 16 + i) / 16) % COUNTER_MODULO
            == (n % COUNTER_MODULO + (offset + i) / 16) % COUNTER_MODULO
    ensures (offset % 16 + i) % 16 == (offset + i) % 16
  {
    assert offset == 16 * (offset / 16) + offset % 16;
    assert (offset + i) / 16 == offset / 16 + (offset % 16 + i) / 16;
    CounterAdds(n + offset / 16, (offset % 16 + i) / 16);
    CounterAdds(n, (offset + i) / 16);
  }

  lemma CounterAdds(a: nat, b: nat)
    ensures (a % COUNTER_MODULO + b) % COUNTER_MODULO == (a + b) % COUNTER_MODULO
  {
    var q := a / COUNTER_MODULO;
    assert a + b == q * COUNTER_MODULO + (a % COUNTER_MODULO + b);
  }

  lemma StreamAt(aes: Cipher, nonce: ByteString, offset: nat, i: nat)
    ensures KeyStream(aes, CounterBlock(nonce, offset / BLOCK_SIZE), offset % BLOCK_SIZE + i) == PositionByte(aes, nonce, offset + i)
  {
    StreamAligned(FromBigEndian(nonce), offset, i);
  }

  /** Where a byte sits in the chunk decides what it is combined with; the skew and the wrap do not show. */
  lemma TransformAt(aes: Cipher, nonce: ByteString, data: ByteString, offset: nat, i: nat, position: nat)
    requires i < |data| && position == offset + i
    ensures Transform(aes, nonce, data, offset)[i] == Xor(data[i], PositionByte(aes, nonce, position))
  {
    hide Update, Filler, KeyStream, CounterBlock, PositionByte, Xor;
    var blockIndex, skew := offset / BLOCK_SIZE, offset % BLOCK_SIZE;
    var fed := Filler(skew) + data;
    assert fed[skew + i] == data[i];
    UpdateAt(aes, CounterBlock(nonce, blockIndex), fed, skew + i);
    StreamAt(aes, nonce, offset, i);
  }

  // `r` is `data` combined byte by byte with the stream from `offset` on.
  predicate Streamed(aes: Cipher, nonce: ByteString, data: ByteString, offset: nat, r: ByteString) {
    |r| == |data| && forall i :: 0 <= i < |data| ==> r[i] == Xor(data[i], PositionByte(aes, nonce, offset + i))
  }

  lemma TransformStreams(aes: Cipher, nonce: ByteString, data: ByteString, offset: nat)
    ensures Streamed(aes, nonce, data, offset, Transform(aes, nonce, data, offset))
  {
    forall i | 0 <= i < |data|
      ensures Transform(aes, nonce, data, offset)[i] == Xor(data[i], PositionByte(aes, nonce, offset + i))
    {
      TransformAt(aes, nonce, data, offset, i, offset + i);
    }
  }

  lemma StreamedSuffix(aes: Cipher, nonce: ByteString, data: ByteString, offset: nat, skip: nat,
                       part: ByteString, whole: ByteString)
    requires skip <= |data|
    requires Streamed(aes, nonce, data, offset, whole)
    requires Streamed(aes, nonce, data[skip..], offset + skip, part)
    ensures part == whole[skip..]
  {
    forall i | 0 <= i < |part| ensures part[i] == whole[skip..][i] {
      assert part[i] == Xor(data[skip..][i], PositionByte(aes, nonce, (offset + skip) + i));
      assert whole[skip + i] == Xor(data[skip + i], PositionByte(aes, nonce, offset + (skip + i)));
      assert (offset + skip) + i == offset + (skip + i);
    }
  }

  /** Starting part-way in gives that part of the whole, from any base offset, aligned or not. */
  lemma SuffixAtOffset(aes: Cipher, nonce: ByteString, data: ByteString, offset: nat, skip: nat)
    requires skip <= |data|
    ensures Transform(aes, nonce, data[skip..], offset + skip) == Transform(aes, nonce, data, offset)[skip..]
  {
    var suffix, start := data[skip..], offset + skip;
    var part, whole := Transform(aes, nonce, suffix, start), Transform(aes, nonce, data, offset);
    assert part == whole[skip..] by {
      TransformStreams(aes, nonce, suffix, start);
      TransformStreams(aes, nonce, data, offset);
      StreamedSuffix(aes, nonce, data, offset, skip, part, whole);
    }
  }

  /** CTR is its own inverse. */
  lemma TransformInverse(aes: Cipher, nonce: ByteString, data: ByteString, offset: nat)
    ensures Transform(aes, nonce, Transform(aes, nonce, data, offset), offset) == data
  {
    var once := Transform(aes, nonce, data, offset);
    var twice := Transform(aes, nonce, once, offset);
    forall i | 0 <= i < |data| ensures twice[i] == data[i] {
      var position := offset + i;
      TransformAt(aes, nonce, data, offset, i, position);
      TransformAt(aes, nonce, once, offset, i, position);
      XorInvolution(data[i], PositionByte(aes, nonce, position));
    }
  }

  /** What a position is combined with: the nonce is the first counter, and each block of sixteen has the next. */
  lemma PositionByteIs(aes: Cipher, nonce: ByteString, position: nat)
    ensures PositionByte(aes, nonce, position)
            == aes((FromBigEndian(nonce) + position / 16) % 0x1_00000000_00000000_00000000_00000000)[position % 16]
  {
    CounterAdds(FromBigEndian(nonce) + 0, position / 16);
  }

  /** The counter wraps: the key stream repeats after 2^128 blocks. */
  lemma CounterWraps(aes: Cipher, nonce: ByteString, i: nat)
    ensures PositionByte(aes, nonce, i + BLOCK_SIZE * COUNTER_MODULO) == PositionByte(aes, nonce, i)
  {
    var c := CounterBlock(nonce, 0);
    assert (i + BLOCK_SIZE * COUNTER_MODULO) / BLOCK_SIZE == i / BLOCK_SIZE + COUNTER_MODULO;
    assert (i + BLOCK_SIZE * COUNTER_MODULO) % BLOCK_SIZE == i % BLOCK_SIZE;
    assert (c + (i / BLOCK_SIZE + COUNTER_MODULO)) % COUNTER_MODULO == (c + i / BLOCK_SIZE) % COUNTER_MODULO;
  }
}
