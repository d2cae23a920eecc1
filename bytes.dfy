/**
 * Bytes, CryptoJS word arrays and "binary strings" (one character per byte),
 * the three representations the attachment code converts between.
 */
module Bytes {

  newtype byte = x: int | 0 <= x < 256

  const TwoTo32: int := 0x1_0000_0000

  /**
   * A CryptoJS `WordArray`: 32-bit words holding the bytes big-endian, and the
   * number of significant bytes.
   */
  datatype WordArray = WordArray(words: seq<int>, sigBytes: int)

  /**
   * `words[k] >>> 0`: the word as an unsigned 32-bit value. JavaScript reads
   * an index past the end as `undefined`, which the shift turns into 0.
   */
  function WordAt(words: seq<int>, k: nat): (w: int)
    ensures 0 <= w < TwoTo32
  {
    if k < |words| then words[k] % TwoTo32 else 0
  }

  /** `2 ** (24 - 8 * j)`, the weight of byte `j` of a big-endian word. */
  function Weight(j: nat): (w: nat)
    requires j < 4
    ensures w > 0
  {
    if j == 0 then 0x100_0000 else if j == 1 then 0x1_0000 else if j == 2 then 0x100 else 1
  }

  /** `(w >>> (24 - 8 * j)) & 0xff`: byte `j` of an unsigned word, counting from the most significant. */
  function ByteOfWord(w: int, j: nat): byte
    requires 0 <= w < TwoTo32 && j < 4
  {
    ((w / Weight(j)) % 256) as byte
  }

  /** The bytes a word array holds: byte `i` is byte `i % 4` of word `i / 4`. */
  function Unpacked(words: seq<int>, n: nat): (r: seq<byte>)
    ensures |r| == n
  {
    seq(n, i requires 0 <= i < n => ByteOfWord(WordAt(words, i / 4), i % 4))
  }

  /** Byte `i` of `b`, or 0 past its end. */
  function ByteAt(b: seq<byte>, i: nat): byte {
    if i < |b| then b[i] else 0
  }

  /** Word `k` of the big-endian packing of `b`, zero-filled past its end. */
  function PackedWord(b: seq<byte>, k: nat): (w: int)
    ensures 0 <= w < TwoTo32
  {
    ByteAt(b, 4 * k) as int * 0x100_0000 + ByteAt(b, 4 * k + 1) as int * 0x1_0000
      + ByteAt(b, 4 * k + 2) as int * 0x100 + ByteAt(b, 4 * k + 3) as int
  }

  /** The word array CryptoJS builds from a byte buffer: four bytes per word, most significant first. */
  function Packed(b: seq<byte>): (wa: WordArray)
    ensures wa.sigBytes == |b|
  {
    WordArray(seq((|b| + 3) / 4, k requires 0 <= k => PackedWord(b, k)), |b|)
  }

  lemma ByteOfPackedWord(b0: byte, b1: byte, b2: byte, b3: byte, j: nat)
    requires j < 4
    ensures ByteOfWord(b0 as int * 0x100_0000 + b1 as int * 0x1_0000 + b2 as int * 0x100 + b3 as int, j)
         == (if j == 0 then b0 else if j == 1 then b1 else if j == 2 then b2 else b3)
  {
    var w := b0 as int * 0x100_0000 + b1 as int * 0x1_0000 + b2 as int * 0x100 + b3 as int;
    if j == 0 {
      assert w / 0x100_0000 == b0 as int;
    } else if j == 1 {
      assert w / 0x1_0000 == b0 as int * 0x100 + b1 as int;
    } else if j == 2 {
      assert w / 0x100 == b0 as int * 0x1_0000 + b1 as int * 0x100 + b2 as int;
    }
  }

  /** Unpacking a packed buffer gives the buffer back: the unpacking order is big-endian. */
  lemma UnpackPacked(b: seq<byte>)
    ensures Unpacked(Packed(b).words, |b|) == b
  {
    var words := Packed(b).words;
    forall i | 0 <= i < |b|
      ensures Unpacked(words, |b|)[i] == b[i]
    {
      var k, j := i / 4, i % 4;
      assert k < |words| && words[k] == PackedWord(b, k);
      assert WordAt(words, k) == PackedWord(b, k);
      ByteOfPackedWord(ByteAt(b, 4 * k), ByteAt(b, 4 * k + 1), ByteAt(b, 4 * k + 2), ByteAt(b, 4 * k + 3), j);
      assert 4 * k + j == i;
    }
  }

  /** `String.fromCharCode(b)` for each byte: the "binary string" of a buffer. */
  function BinaryString(b: seq<byte>): (s: string)
    ensures |s| == |b|
  {
    seq(|b|, i requires 0 <= i < |b| => b[i] as int as char)
  }

  /** `s.charCodeAt(i)` stored into a `Uint8Array`, which keeps the code modulo 256. */
  function BinaryBytes(s: string): (b: seq<byte>)
    ensures |b| == |s|
  {
    seq(|s|, i requires 0 <= i < |s| => (s[i] as int % 256) as byte)
  }

  /** Every character of `s` is a single byte (code below 256), as `atob` produces. */
  predicate IsBinary(s: string) {
    forall i :: 0 <= i < |s| ==> s[i] as int < 256
  }

  /** A buffer survives the trip through a binary string. */
  lemma BinaryBytesOfBinaryString(b: seq<byte>)
    ensures BinaryBytes(BinaryString(b)) == b
  {
  }

  /** A binary string survives the trip through a buffer. */
  lemma BinaryStringOfBinaryBytes(s: string)
    requires IsBinary(s)
    ensures BinaryString(BinaryBytes(s)) == s
  {
  }
}
