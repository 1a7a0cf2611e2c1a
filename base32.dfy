/**
 * Fixed-width base32 codec of typeid-go (typeid/typeid-go/base32/base32.go):
 * 16 bytes (128 bits) <-> 26 characters of Crockford's base32 alphabet in
 * lower case, the suffix encoding of the TypeID and ULID formats.
 *
 * Go strings are byte strings, so both directions work on `seq<byte>`.
 * The reference specification is bit-level: the 26 characters spell a
 * 130-bit string, five bits per character, whose first two bits are the
 * padding in front of the 128 bits of the identifier. `Encode` and
 * `Decode` are the unrolled mask-and-shift code, proved equal to it.
 */
module Base32 {
  import opened Wrappers

  type byte = bv8
  type bit = bv1

  // ---------------------------------------------------------------------
  // The alphabet and the decoding table

  /** The encoding alphabet. */
  const Alphabet: string := "0123456789abcdefghjkmnpqrstvwxyz"

  /** The character code of alphabet entry q, written out by ranges. */
  function AlphabetCode(q: nat): (c: int)
    requires q < 32
    ensures 48 <= c <= 122
  {
    if q < 10 then 48 + q          // '0'..'9'
    else if q < 18 then 87 + q     // 'a'..'h'
    else if q < 20 then 88 + q     // 'j', 'k'
    else if q < 22 then 89 + q     // 'm', 'n'
    else if q < 27 then 90 + q     // 'p'..'t'
    else 91 + q                    // 'v'..'z'
  }

  lemma AlphabetCodes(q: nat)
    requires q < 32
    ensures Alphabet[q] as int == AlphabetCode(q)
  {
  }

  /**
   * `alphabet[q]`: the byte that stands for the 5-bit value q, computed by
   * the ranges of the alphabet (DigitIsAlphabetEntry).
   */
  function Digit(q: byte): byte
    requires q < 32
  {
    if q < 10 then 48 + q
    else if q < 18 then 87 + q
    else if q < 20 then 88 + q
    else if q < 22 then 89 + q
    else if q < 27 then 90 + q
    else 91 + q
  }

  /** Digit(q) is entry q of the alphabet. */
  lemma {:induction false} DigitIsAlphabetEntry(q: byte)
    requires q < 32
    ensures Digit(q) as int == Alphabet[q as int] as int
  {
    AlphabetCodes(q as int);
  }

  /** No two 5-bit values share a character. */
  lemma DigitsDistinct(p: byte, q: byte)
    requires p < 32 && q < 32 && Digit(p) == Digit(q)
    ensures p == q
  {
  }

  /**
   * The bytes the decoder accepts: '0'..'9' and the lower-case letters
   * except 'i', 'l', 'o' and 'u'.
   */
  predicate IsDigitChar(c: byte) {
    (48 <= c <= 57) || (97 <= c <= 122 && c != 105 && c != 108 && c != 111 && c != 117)
  }

  /** The first alphabet position at or after q holding c, or 0xFF. */
  function IndexFrom(c: byte, q: byte): byte
    requires q <= 32
    decreases 32 - q
  {
    if q == 32 then 0xFF
    else if Digit(q) == c then q
    else IndexFrom(c, q + 1)
  }

  /**
   * The `dec` table: for each of the 256 byte values, its position in the
   * alphabet, or the sentinel 0xFF for a byte that is not a digit. The
   * table in the source lists exactly these 256 entries.
   */
  function Dec(): (t: seq<byte>)
    ensures |t| == 256
  {
    seq(256, c requires 0 <= c < 256 => IndexFrom(c as byte, 0))
  }

  lemma {:induction false} IndexFromFinds(c: byte, k: byte, q: byte)
    requires k <= q < 32 && Digit(q) == c
    ensures IndexFrom(c, k) == q
    decreases q - k
  {
    if k != q {
      assert Digit(k) != c by {
        if Digit(k) == c { DigitsDistinct(k, q); }
      }
      IndexFromFinds(c, k + 1, q);
    }
  }

  lemma {:induction false} IndexFromFound(c: byte, k: byte)
    requires k <= 32 && IndexFrom(c, k) != 0xFF
    ensures IndexFrom(c, k) < 32 && Digit(IndexFrom(c, k)) == c
    decreases 32 - k
  {
    if k < 32 && Digit(k) != c {
      IndexFromFound(c, k + 1);
    }
  }

  /** The table maps every alphabet character back to its position. */
  lemma {:induction false} DecOfDigit(q: byte)
    requires q < 32
    ensures Dec()[Digit(q)] == q
  {
    IndexFromFinds(Digit(q), 0, q);
  }

  /** Every entry other than the sentinel is a 5-bit value whose character is the index. */
  lemma {:induction false} DigitOfDec(c: byte)
    requires Dec()[c] != 0xFF
    ensures Dec()[c] < 32 && Digit(Dec()[c]) == c
  {
    IndexFromFound(c, 0);
  }

  /**
   * The table accepts exactly the lower-case Crockford digits: upper-case
   * letters, 'i', 'l', 'o', 'u' and every other byte map to 0xFF.
   */
  lemma {:induction false} DecAcceptsExactlyDigitChars(c: byte)
    ensures Dec()[c] != 0xFF <==> IsDigitChar(c)
  {
    if Dec()[c] != 0xFF {
      DigitOfDec(c);
    } else if IsDigitChar(c) {
      var q :=
        if c <= 57 then c - 48
        else if c <= 104 then c - 87
        else if c <= 107 then c - 88
        else if c <= 110 then c - 89
        else if c <= 116 then c - 90
        else c - 91;
      DecOfDigit(q);
    }
  }

  // ---------------------------------------------------------------------
  // Reference specification: bit strings, most significant bit first

  /** The 8 bits of x. */
  function ByteBits(x: byte): (p: seq<bit>)
    ensures |p| == 8
  {
    [((x >> 7) & 1) as bit, ((x >> 6) & 1) as bit, ((x >> 5) & 1) as bit, ((x >> 4) & 1) as bit,
     ((x >> 3) & 1) as bit, ((x >> 2) & 1) as bit, ((x >> 1) & 1) as bit, (x & 1) as bit]
  }

  /** The low 5 bits of q. */
  function QuintetBits(q: byte): (p: seq<bit>)
    ensures |p| == 5
  {
    [((q >> 4) & 1) as bit, ((q >> 3) & 1) as bit, ((q >> 2) & 1) as bit, ((q >> 1) & 1) as bit, (q & 1) as bit]
  }

  /** The byte spelled by 8 bits. */
  function Pack8(p0: bit, p1: bit, p2: bit, p3: bit, p4: bit, p5: bit, p6: bit, p7: bit): (x: byte)
    ensures ByteBits(x) == [p0, p1, p2, p3, p4, p5, p6, p7]
  {
    (p0 as byte << 7) | (p1 as byte << 6) | (p2 as byte << 5) | (p3 as byte << 4)
      | (p4 as byte << 3) | (p5 as byte << 2) | (p6 as byte << 1) | p7 as byte
  }

  /** The 5-bit value spelled by 5 bits. */
  function Pack5(p0: bit, p1: bit, p2: bit, p3: bit, p4: bit): (q: byte)
    ensures q < 32 && QuintetBits(q) == [p0, p1, p2, p3, p4]
  {
    (p0 as byte << 4) | (p1 as byte << 3) | (p2 as byte << 2) | (p3 as byte << 1) | p4 as byte
  }

  lemma PackByteBits(x: byte)
    ensures var p := ByteBits(x); Pack8(p[0], p[1], p[2], p[3], p[4], p[5], p[6], p[7]) == x
  {
  }

  lemma PackQuintetBits(q: byte)
    requires q < 32
    ensures var p := QuintetBits(q); Pack5(p[0], p[1], p[2], p[3], p[4]) == q
  {
  }

  /** The bits of a byte string, 8 per byte. */
  function Bits8(b: seq<byte>): (p: seq<bit>)
    ensures |p| == 8 * |b|
  {
    if b == [] then [] else ByteBits(b[0]) + Bits8(b[1..])
  }

  /** The bits of a string of 5-bit values, 5 per value. */
  function Bits5(d: seq<byte>): (p: seq<bit>)
    ensures |p| == 5 * |d|
  {
    if d == [] then [] else QuintetBits(d[0]) + Bits5(d[1..])
  }

  /** A bit string cut into bytes. */
  function Group8(p: seq<bit>): (b: seq<byte>)
    requires |p| % 8 == 0
    ensures |b| == |p| / 8
  {
    if p == [] then [] else [Pack8(p[0], p[1], p[2], p[3], p[4], p[5], p[6], p[7])] + Group8(p[8..])
  }

  /** A bit string cut into 5-bit values. */
  function Group5(p: seq<bit>): (d: seq<byte>)
    requires |p| % 5 == 0
    ensures |d| == |p| / 5
    ensures forall i :: 0 <= i < |d| ==> d[i] < 32
  {
    if p == [] then [] else [Pack5(p[0], p[1], p[2], p[3], p[4])] + Group5(p[5..])
  }

  lemma {:induction false} Group8Bits8(b: seq<byte>)
    ensures Group8(Bits8(b)) == b
  {
    if b != [] {
      var p := Bits8(b);
      assert p[..8] == ByteBits(b[0]);
      assert p[8..] == Bits8(b[1..]);
      PackByteBits(b[0]);
      Group8Bits8(b[1..]);
    }
  }

  lemma {:induction false} Bits8Group8(p: seq<bit>)
    requires |p| % 8 == 0
    ensures Bits8(Group8(p)) == p
  {
    if p != [] {
      var b := Group8(p);
      assert b[1..] == Group8(p[8..]);
      Bits8Group8(p[8..]);
      assert p == p[..8] + p[8..];
    }
  }

  lemma {:induction false} Group5Bits5(d: seq<byte>)
    requires forall i :: 0 <= i < |d| ==> d[i] < 32
    ensures Group5(Bits5(d)) == d
  {
    if d != [] {
      var p := Bits5(d);
      assert p[..5] == QuintetBits(d[0]);
      assert p[5..] == Bits5(d[1..]);
      PackQuintetBits(d[0]);
      Group5Bits5(d[1..]);
    }
  }

  lemma {:induction false} Bits5Group5(p: seq<bit>)
    requires |p| % 5 == 0
    ensures Bits5(Group5(p)) == p
  {
    if p != [] {
      var d := Group5(p);
      assert d[1..] == Group5(p[5..]);
      Bits5Group5(p[5..]);
      assert p == p[..5] + p[5..];
    }
  }

  lemma {:induction false} Bits8Index(b: seq<byte>, j: nat, t: nat)
    requires j < |b| && t < 8
    ensures Bits8(b)[8 * j + t] == ByteBits(b[j])[t]
  {
    if j > 0 {
      Bits8Index(b[1..], j - 1, t);
    }
  }

  lemma {:induction false} Bits5Index(d: seq<byte>, i: nat, t: nat)
    requires i < |d| && t < 5
    ensures Bits5(d)[5 * i + t] == QuintetBits(d[i])[t]
  {
    if i > 0 {
      Bits5Index(d[1..], i - 1, t);
    }
  }

  lemma {:induction false} Group8Index(p: seq<bit>, j: nat)
    requires |p| % 8 == 0 && j < |p| / 8
    ensures Group8(p)[j] == Pack8(p[8 * j], p[8 * j + 1], p[8 * j + 2], p[8 * j + 3],
                                  p[8 * j + 4], p[8 * j + 5], p[8 * j + 6], p[8 * j + 7])
  {
    if j > 0 {
      Group8Index(p[8..], j - 1);
    }
  }

  lemma {:induction false} Group5Index(p: seq<bit>, i: nat)
    requires |p| % 5 == 0 && i < |p| / 5
    ensures Group5(p)[i] == Pack5(p[5 * i], p[5 * i + 1], p[5 * i + 2], p[5 * i + 3], p[5 * i + 4])
  {
    if i > 0 {
      Group5Index(p[5..], i - 1);
    }
  }

  // ---------------------------------------------------------------------
  // The encoding and decoding the codec promises

  /** The 130-bit string: two zero bits, then the 128 bits of the identifier. */
  function Padded(b: seq<byte>): (p: seq<bit>)
    ensures |p| == 8 * |b| + 2
  {
    [0, 0] + Bits8(b)
  }

  lemma {:induction false} PaddedIndex(b: seq<byte>, j: nat, t: nat)
    requires j < |b| && t < 8
    ensures Padded(b)[8 * j + t + 2] == ByteBits(b[j])[t]
  {
    Bits8Index(b, j, t);
  }

  /** The 26 five-bit values of the 130-bit string of b. */
  function Quintets(b: seq<byte>): (d: seq<byte>)
    requires |b| == 16
    ensures |d| == 26
  {
    Group5(Padded(b))
  }

  /** The 26 characters that spell the 130-bit string of b. */
  function EncodeSpec(b: seq<byte>): (s: seq<byte>)
    requires |b| == 16
    ensures |s| == 26
  {
    seq(26, i requires 0 <= i < 26 => Digit(Quintets(b)[i]))
  }

  /** How `Decode` fails. `Overflow` is only produced by the strict decoder. */
  datatype DecodeError = InvalidLength | InvalidCharacter | Overflow

  /** Every byte of s has a table entry other than the sentinel. */
  predicate AllDigitChars(s: seq<byte>) {
    forall i :: 0 <= i < |s| ==> Dec()[s[i]] != 0xFF
  }

  /** The table entries of the 26 bytes of s. */
  function Values(s: seq<byte>): (d: seq<byte>)
    requires |s| == 26
    ensures |d| == 26
  {
    seq(26, i requires 0 <= i < 26 => Dec()[s[i]])
  }

  /** The 128 bits that follow the first two bits of the string spelled by d. */
  function Stream(d: seq<byte>): (p: seq<bit>)
    requires |d| == 26
    ensures |p| == 128
  {
    Bits5(d)[2..]
  }

  lemma StreamIndex(d: seq<byte>, i: nat, t: nat)
    requires |d| == 26 && i < 26 && t < 5 && 5 * i + t >= 2
    ensures Stream(d)[5 * i + t - 2] == QuintetBits(d[i])[t]
  {
    Bits5Index(d, i, t);
  }

  /**
   * What `Decode` computes: the length is checked first, then the
   * character set, and the identifier is the 128 bits after the first two
   * of the 130-bit string the characters spell; those two bits are dropped
   * unchecked.
   */
  function DecodeSpec(s: seq<byte>): (r: Result<seq<byte>, DecodeError>)
    ensures r.Success? ==> |r.value| == 16
  {
    if |s| != 26 then Failure(InvalidLength)
    else if !AllDigitChars(s) then Failure(InvalidCharacter)
    else Success(Group8(Stream(Values(s))))
  }

  // ---------------------------------------------------------------------
  // The unrolled mask-and-shift formulas, one position at a time

  lemma Quintet0(b: seq<byte>)
    requires |b| == 16
    ensures Quintets(b)[0] == (b[0]&224)>>5
  {
    Group5Index(Padded(b), 0);
    PaddedIndex(b, 0, 0);
    PaddedIndex(b, 0, 1);
    PaddedIndex(b, 0, 2);
  }

  lemma Quintet1(b: seq<byte>)
    requires |b| == 16
    ensures Quintets(b)[1] == b[0]&31
  {
    Group5Index(Padded(b), 1);
    PaddedIndex(b, 0, 3);
    PaddedIndex(b, 0, 4);
    PaddedIndex(b, 0, 5);
    PaddedIndex(b, 0, 6);
    PaddedIndex(b, 0, 7);
  }

  lemma Quintet2(b: seq<byte>)
    requires |b| == 16
    ensures Quintets(b)[2] == (b[1]&248)>>3
  {
    Group5Index(Padded(b), 2);
    PaddedIndex(b, 1, 0);
    PaddedIndex(b, 1, 1);
    PaddedIndex(b, 1, 2);
    PaddedIndex(b, 1, 3);
    PaddedIndex(b, 1, 4);
  }

  lemma Quintet3(b: seq<byte>)
    requires |b| == 16
    ensures Quintets(b)[3] == ((b[1]&7)<<2)|((b[2]&192)>>6)
  {
    Group5Index(Padded(b), 3);
    PaddedIndex(b, 1, 5);
    PaddedIndex(b, 1, 6);
    PaddedIndex(b, 1, 7);
    PaddedIndex(b, 2, 0);
    PaddedIndex(b, 2, 1);
  }

  lemma Quintet4(b: seq<byte>)
    requires |b| == 16
    ensures Quintets(b)[4] == (b[2]&62)>>1
  {
    Group5Index(Padded(b), 4);
    PaddedIndex(b, 2, 2);
    PaddedIndex(b, 2, 3);
    PaddedIndex(b, 2, 4);
    PaddedIndex(b, 2, 5);
    PaddedIndex(b, 2, 6);
  }

  lemma Quintet5(b: seq<byte>)
    requires |b| == 16
    ensures Quintets(b)[5] == ((b[2]&1)<<4)|((b[3]&240)>>4)
  {
    Group5Index(Padded(b), 5);
    PaddedIndex(b, 2, 7);
    PaddedIndex(b, 3, 0);
    PaddedIndex(b, 3, 1);
    PaddedIndex(b, 3, 2);
    PaddedIndex(b, 3, 3);
  }

  lemma Quintet6(b: seq<byte>)
    requires |b| == 16
    ensures Quintets(b)[6] == ((b[3]&15)<<1)|((b[4]&128)>>7)
  {
    Group5Index(Padded(b), 6);
    PaddedIndex(b, 3, 4);
    PaddedIndex(b, 3, 5);
    PaddedIndex(b, 3, 6);
    PaddedIndex(b, 3, 7);
    PaddedIndex(b, 4, 0);
  }

  lemma Quintet7(b: seq<byte>)
    requires |b| == 16
    ensures Quintets(b)[7] == (b[4]&124)>>2
  {
    Group5Index(Padded(b), 7);
    PaddedIndex(b, 4, 1);
    PaddedIndex(b, 4, 2);
    PaddedIndex(b, 4, 3);
    PaddedIndex(b, 4, 4);
    PaddedIndex(b, 4, 5);
  }

  lemma Quintet8(b: seq<byte>)
    requires |b| == 16
    ensures Quintets(b)[8] == ((b[4]&3)<<3)|((b[5]&224)>>5)
  {
    Group5Index(Padded(b), 8);
    PaddedIndex(b, 4, 6);
    PaddedIndex(b, 4, 7);
    PaddedIndex(b, 5, 0);
    PaddedIndex(b, 5, 1);
    PaddedIndex(b, 5, 2);
  }

  lemma Quintet9(b: seq<byte>)
    requires |b| == 16
    ensures Quintets(b)[9] == b[5]&31
  {
    Group5Index(Padded(b), 9);
    PaddedIndex(b, 5, 3);
    PaddedIndex(b, 5, 4);
    PaddedIndex(b, 5, 5);
    PaddedIndex(b, 5, 6);
    PaddedIndex(b, 5, 7);
  }

  lemma Quintet10(b: seq<byte>)
    requires |b| == 16
    ensures Quintets(b)[10] == (b[6]&248)>>3
  {
    Group5Index(Padded(b), 10);
    PaddedIndex(b, 6, 0);
    PaddedIndex(b, 6, 1);
    PaddedIndex(b, 6, 2);
    PaddedIndex(b, 6, 3);
    PaddedIndex(b, 6, 4);
  }

  lemma Quintet11(b: seq<byte>)
    requires |b| == 16
    ensures Quintets(b)[11] == ((b[6]&7)<<2)|((b[7]&192)>>6)
  {
    Group5Index(Padded(b), 11);
    PaddedIndex(b, 6, 5);
    PaddedIndex(b, 6, 6);
    PaddedIndex(b, 6, 7);
    PaddedIndex(b, 7, 0);
    PaddedIndex(b, 7, 1);
  }

  lemma Quintet12(b: seq<byte>)
    requires |b| == 16
    ensures Quintets(b)[12] == (b[7]&62)>>1
  {
    Group5Index(Padded(b), 12);
    PaddedIndex(b, 7, 2);
    PaddedIndex(b, 7, 3);
    PaddedIndex(b, 7, 4);
    PaddedIndex(b, 7, 5);
    PaddedIndex(b, 7, 6);
  }

  lemma Quintet13(b: seq<byte>)
    requires |b| == 16
    ensures Quintets(b)[13] == ((b[7]&1)<<4)|((b[8]&240)>>4)
  {
    Group5Index(Padded(b), 13);
    PaddedIndex(b, 7, 7);
    PaddedIndex(b, 8, 0);
    PaddedIndex(b, 8, 1);
    PaddedIndex(b, 8, 2);
    PaddedIndex(b, 8, 3);
  }

  lemma Quintet14(b: seq<byte>)
    requires |b| == 16
    ensures Quintets(b)[14] == ((b[8]&15)<<1)|((b[9]&128)>>7)
  {
    Group5Index(Padded(b), 14);
    PaddedIndex(b, 8, 4);
    PaddedIndex(b, 8, 5);
    PaddedIndex(b, 8, 6);
    PaddedIndex(b, 8, 7);
    PaddedIndex(b, 9, 0);
  }

  lemma Quintet15(b: seq<byte>)
    requires |b| == 16
    ensures Quintets(b)[15] == (b[9]&124)>>2
  {
    Group5Index(Padded(b), 15);
    PaddedIndex(b, 9, 1);
    PaddedIndex(b, 9, 2);
    PaddedIndex(b, 9, 3);
    PaddedIndex(b, 9, 4);
    PaddedIndex(b, 9, 5);
  }

  lemma Quintet16(b: seq<byte>)
    requires |b| == 16
    ensures Quintets(b)[16] == ((b[9]&3)<<3)|((b[10]&224)>>5)
  {
    Group5Index(Padded(b), 16);
    PaddedIndex(b, 9, 6);
    PaddedIndex(b, 9, 7);
    PaddedIndex(b, 10, 0);
    PaddedIndex(b, 10, 1);
    PaddedIndex(b, 10, 2);
  }

  lemma Quintet17(b: seq<byte>)
    requires |b| == 16
    ensures Quintets(b)[17] == b[10]&31
  {
    Group5Index(Padded(b), 17);
    PaddedIndex(b, 10, 3);
    PaddedIndex(b, 10, 4);
    PaddedIndex(b, 10, 5);
    PaddedIndex(b, 10, 6);
    PaddedIndex(b, 10, 7);
  }

  lemma Quintet18(b: seq<byte>)
    requires |b| == 16
    ensures Quintets(b)[18] == (b[11]&248)>>3
  {
    Group5Index(Padded(b), 18);
    PaddedIndex(b, 11, 0);
    PaddedIndex(b, 11, 1);
    PaddedIndex(b, 11, 2);
    PaddedIndex(b, 11, 3);
    PaddedIndex(b, 11, 4);
  }

  lemma Quintet19(b: seq<byte>)
    requires |b| == 16
    ensures Quintets(b)[19] == ((b[11]&7)<<2)|((b[12]&192)>>6)
  {
    Group5Index(Padded(b), 19);
    PaddedIndex(b, 11, 5);
    PaddedIndex(b, 11, 6);
    PaddedIndex(b, 11, 7);
    PaddedIndex(b, 12, 0);
    PaddedIndex(b, 12, 1);
  }

  lemma Quintet20(b: seq<byte>)
    requires |b| == 16
    ensures Quintets(b)[20] == (b[12]&62)>>1
  {
    Group5Index(Padded(b), 20);
    PaddedIndex(b, 12, 2);
    PaddedIndex(b, 12, 3);
    PaddedIndex(b, 12, 4);
    PaddedIndex(b, 12, 5);
    PaddedIndex(b, 12, 6);
  }

  lemma Quintet21(b: seq<byte>)
    requires |b| == 16
    ensures Quintets(b)[21] == ((b[12]&1)<<4)|((b[13]&240)>>4)
  {
    Group5Index(Padded(b), 21);
    PaddedIndex(b, 12, 7);
    PaddedIndex(b, 13, 0);
    PaddedIndex(b, 13, 1);
    PaddedIndex(b, 13, 2);
    PaddedIndex(b, 13, 3);
  }

  lemma Quintet22(b: seq<byte>)
    requires |b| == 16
    ensures Quintets(b)[22] == ((b[13]&15)<<1)|((b[14]&128)>>7)
  {
    Group5Index(Padded(b), 22);
    PaddedIndex(b, 13, 4);
    PaddedIndex(b, 13, 5);
    PaddedIndex(b, 13, 6);
    PaddedIndex(b, 13, 7);
    PaddedIndex(b, 14, 0);
  }

  lemma Quintet23(b: seq<byte>)
    requires |b| == 16
    ensures Quintets(b)[23] == (b[14]&124)>>2
  {
    Group5Index(Padded(b), 23);
    PaddedIndex(b, 14, 1);
    PaddedIndex(b, 14, 2);
    PaddedIndex(b, 14, 3);
    PaddedIndex(b, 14, 4);
    PaddedIndex(b, 14, 5);
  }

  lemma Quintet24(b: seq<byte>)
    requires |b| == 16
    ensures Quintets(b)[24] == ((b[14]&3)<<3)|((b[15]&224)>>5)
  {
    Group5Index(Padded(b), 24);
    PaddedIndex(b, 14, 6);
    PaddedIndex(b, 14, 7);
    PaddedIndex(b, 15, 0);
    PaddedIndex(b, 15, 1);
    PaddedIndex(b, 15, 2);
  }

  lemma Quintet25(b: seq<byte>)
    requires |b| == 16
    ensures Quintets(b)[25] == b[15]&31
  {
    Group5Index(Padded(b), 25);
    PaddedIndex(b, 15, 3);
    PaddedIndex(b, 15, 4);
    PaddedIndex(b, 15, 5);
    PaddedIndex(b, 15, 6);
    PaddedIndex(b, 15, 7);
  }

  lemma StreamByte0(d: seq<byte>)
    requires |d| == 26 && forall i :: 0 <= i < 26 ==> d[i] < 32
    ensures Group8(Stream(d))[0] == (d[0] << 5) | d[1]
  {
    Group8Index(Stream(d), 0);
    StreamIndex(d, 0, 2);
    StreamIndex(d, 0, 3);
    StreamIndex(d, 0, 4);
    StreamIndex(d, 1, 0);
    StreamIndex(d, 1, 1);
    StreamIndex(d, 1, 2);
    StreamIndex(d, 1, 3);
    StreamIndex(d, 1, 4);
  }

  lemma StreamByte1(d: seq<byte>)
    requires |d| == 26 && forall i :: 0 <= i < 26 ==> d[i] < 32
    ensures Group8(Stream(d))[1] == (d[2] << 3) | (d[3] >> 2)
  {
    Group8Index(Stream(d), 1);
    StreamIndex(d, 2, 0);
    StreamIndex(d, 2, 1);
    StreamIndex(d, 2, 2);
    StreamIndex(d, 2, 3);
    StreamIndex(d, 2, 4);
    StreamIndex(d, 3, 0);
    StreamIndex(d, 3, 1);
    StreamIndex(d, 3, 2);
  }

  lemma StreamByte2(d: seq<byte>)
    requires |d| == 26 && forall i :: 0 <= i < 26 ==> d[i] < 32
    ensures Group8(Stream(d))[2] == (d[3] << 6) | (d[4] << 1) | (d[5] >> 4)
  {
    Group8Index(Stream(d), 2);
    StreamIndex(d, 3, 3);
    StreamIndex(d, 3, 4);
    StreamIndex(d, 4, 0);
    StreamIndex(d, 4, 1);
    StreamIndex(d, 4, 2);
    StreamIndex(d, 4, 3);
    StreamIndex(d, 4, 4);
    StreamIndex(d, 5, 0);
  }

  lemma StreamByte3(d: seq<byte>)
    requires |d| == 26 && forall i :: 0 <= i < 26 ==> d[i] < 32
    ensures Group8(Stream(d))[3] == (d[5] << 4) | (d[6] >> 1)
  {
    Group8Index(Stream(d), 3);
    StreamIndex(d, 5, 1);
    StreamIndex(d, 5, 2);
    StreamIndex(d, 5, 3);
    StreamIndex(d, 5, 4);
    StreamIndex(d, 6, 0);
    StreamIndex(d, 6, 1);
    StreamIndex(d, 6, 2);
    StreamIndex(d, 6, 3);
  }

  lemma StreamByte4(d: seq<byte>)
    requires |d| == 26 && forall i :: 0 <= i < 26 ==> d[i] < 32
    ensures Group8(Stream(d))[4] == (d[6] << 7) | (d[7] << 2) | (d[8] >> 3)
  {
    Group8Index(Stream(d), 4);
    StreamIndex(d, 6, 4);
    StreamIndex(d, 7, 0);
    StreamIndex(d, 7, 1);
    StreamIndex(d, 7, 2);
    StreamIndex(d, 7, 3);
    StreamIndex(d, 7, 4);
    StreamIndex(d, 8, 0);
    StreamIndex(d, 8, 1);
  }

  lemma StreamByte5(d: seq<byte>)
    requires |d| == 26 && forall i :: 0 <= i < 26 ==> d[i] < 32
    ensures Group8(Stream(d))[5] == (d[8] << 5) | d[9]
  {
    Group8Index(Stream(d), 5);
    StreamIndex(d, 8, 2);
    StreamIndex(d, 8, 3);
    StreamIndex(d, 8, 4);
    StreamIndex(d, 9, 0);
    StreamIndex(d, 9, 1);
    StreamIndex(d, 9, 2);
    StreamIndex(d, 9, 3);
    StreamIndex(d, 9, 4);
  }

  lemma StreamByte6(d: seq<byte>)
    requires |d| == 26 && forall i :: 0 <= i < 26 ==> d[i] < 32
    ensures Group8(Stream(d))[6] == (d[10] << 3) | (d[11] >> 2)
  {
    Group8Index(Stream(d), 6);
    StreamIndex(d, 10, 0);
    StreamIndex(d, 10, 1);
    StreamIndex(d, 10, 2);
    StreamIndex(d, 10, 3);
    StreamIndex(d, 10, 4);
    StreamIndex(d, 11, 0);
    StreamIndex(d, 11, 1);
    StreamIndex(d, 11, 2);
  }

  lemma StreamByte7(d: seq<byte>)
    requires |d| == 26 && forall i :: 0 <= i < 26 ==> d[i] < 32
    ensures Group8(Stream(d))[7] == (d[11] << 6) | (d[12] << 1) | (d[13] >> 4)
  {
    Group8Index(Stream(d), 7);
    StreamIndex(d, 11, 3);
    StreamIndex(d, 11, 4);
    StreamIndex(d, 12, 0);
    StreamIndex(d, 12, 1);
    StreamIndex(d, 12, 2);
    StreamIndex(d, 12, 3);
    StreamIndex(d, 12, 4);
    StreamIndex(d, 13, 0);
  }

  lemma StreamByte8(d: seq<byte>)
    requires |d| == 26 && forall i :: 0 <= i < 26 ==> d[i] < 32
    ensures Group8(Stream(d))[8] == (d[13] << 4) | (d[14] >> 1)
  {
    Group8Index(Stream(d), 8);
    StreamIndex(d, 13, 1);
    StreamIndex(d, 13, 2);
    StreamIndex(d, 13, 3);
    StreamIndex(d, 13, 4);
    StreamIndex(d, 14, 0);
    StreamIndex(d, 14, 1);
    StreamIndex(d, 14, 2);
    StreamIndex(d, 14, 3);
  }

  lemma StreamByte9(d: seq<byte>)
    requires |d| == 26 && forall i :: 0 <= i < 26 ==> d[i] < 32
    ensures Group8(Stream(d))[9] == (d[14] << 7) | (d[15] << 2) | (d[16] >> 3)
  {
    Group8Index(Stream(d), 9);
    StreamIndex(d, 14, 4);
    StreamIndex(d, 15, 0);
    StreamIndex(d, 15, 1);
    StreamIndex(d, 15, 2);
    StreamIndex(d, 15, 3);
    StreamIndex(d, 15, 4);
    StreamIndex(d, 16, 0);
    StreamIndex(d, 16, 1);
  }

  lemma StreamByte10(d: seq<byte>)
    requires |d| == 26 && forall i :: 0 <= i < 26 ==> d[i] < 32
    ensures Group8(Stream(d))[10] == (d[16] << 5) | d[17]
  {
    Group8Index(Stream(d), 10);
    StreamIndex(d, 16, 2);
    StreamIndex(d, 16, 3);
    StreamIndex(d, 16, 4);
    StreamIndex(d, 17, 0);
    StreamIndex(d, 17, 1);
    StreamIndex(d, 17, 2);
    StreamIndex(d, 17, 3);
    StreamIndex(d, 17, 4);
  }

  lemma StreamByte11(d: seq<byte>)
    requires |d| == 26 && forall i :: 0 <= i < 26 ==> d[i] < 32
    ensures Group8(Stream(d))[11] == (d[18] << 3) | (d[19] >> 2)
  {
    Group8Index(Stream(d), 11);
    StreamIndex(d, 18, 0);
    StreamIndex(d, 18, 1);
    StreamIndex(d, 18, 2);
    StreamIndex(d, 18, 3);
    StreamIndex(d, 18, 4);
    StreamIndex(d, 19, 0);
    StreamIndex(d, 19, 1);
    StreamIndex(d, 19, 2);
  }

  lemma StreamByte12(d: seq<byte>)
    requires |d| == 26 && forall i :: 0 <= i < 26 ==> d[i] < 32
    ensures Group8(Stream(d))[12] == (d[19] << 6) | (d[20] << 1) | (d[21] >> 4)
  {
    Group8Index(Stream(d), 12);
    StreamIndex(d, 19, 3);
    StreamIndex(d, 19, 4);
    StreamIndex(d, 20, 0);
    StreamIndex(d, 20, 1);
    StreamIndex(d, 20, 2);
    StreamIndex(d, 20, 3);
    StreamIndex(d, 20, 4);
    StreamIndex(d, 21, 0);
  }

  lemma StreamByte13(d: seq<byte>)
    requires |d| == 26 && forall i :: 0 <= i < 26 ==> d[i] < 32
    ensures Group8(Stream(d))[13] == (d[21] << 4) | (d[22] >> 1)
  {
    Group8Index(Stream(d), 13);
    StreamIndex(d, 21, 1);
    StreamIndex(d, 21, 2);
    StreamIndex(d, 21, 3);
    StreamIndex(d, 21, 4);
    StreamIndex(d, 22, 0);
    StreamIndex(d, 22, 1);
    StreamIndex(d, 22, 2);
    StreamIndex(d, 22, 3);
  }

  lemma StreamByte14(d: seq<byte>)
    requires |d| == 26 && forall i :: 0 <= i < 26 ==> d[i] < 32
    ensures Group8(Stream(d))[14] == (d[22] << 7) | (d[23] << 2) | (d[24] >> 3)
  {
    Group8Index(Stream(d), 14);
    StreamIndex(d, 22, 4);
    StreamIndex(d, 23, 0);
    StreamIndex(d, 23, 1);
    StreamIndex(d, 23, 2);
    StreamIndex(d, 23, 3);
    StreamIndex(d, 23, 4);
    StreamIndex(d, 24, 0);
    StreamIndex(d, 24, 1);
  }

  lemma StreamByte15(d: seq<byte>)
    requires |d| == 26 && forall i :: 0 <= i < 26 ==> d[i] < 32
    ensures Group8(Stream(d))[15] == (d[24] << 5) | d[25]
  {
    Group8Index(Stream(d), 15);
    StreamIndex(d, 24, 2);
    StreamIndex(d, 24, 3);
    StreamIndex(d, 24, 4);
    StreamIndex(d, 25, 0);
    StreamIndex(d, 25, 1);
    StreamIndex(d, 25, 2);
    StreamIndex(d, 25, 3);
    StreamIndex(d, 25, 4);
  }

  lemma EncodeChars0To4(b: seq<byte>)
    requires |b| == 16
    ensures EncodeSpec(b)[0..5] == [
      Digit((b[0]&224)>>5),
      Digit(b[0]&31),
      Digit((b[1]&248)>>3),
      Digit(((b[1]&7)<<2)|((b[2]&192)>>6)),
      Digit((b[2]&62)>>1)]
  {
    Quintet0(b);
    Quintet1(b);
    Quintet2(b);
    Quintet3(b);
    Quintet4(b);
  }

  lemma EncodeChars5To9(b: seq<byte>)
    requires |b| == 16
    ensures EncodeSpec(b)[5..10] == [
      Digit(((b[2]&1)<<4)|((b[3]&240)>>4)),
      Digit(((b[3]&15)<<1)|((b[4]&128)>>7)),
      Digit((b[4]&124)>>2),
      Digit(((b[4]&3)<<3)|((b[5]&224)>>5)),
      Digit(b[5]&31)]
  {
    Quintet5(b);
    Quintet6(b);
    Quintet7(b);
    Quintet8(b);
    Quintet9(b);
  }

  lemma EncodeChars10To14(b: seq<byte>)
    requires |b| == 16
    ensures EncodeSpec(b)[10..15] == [
      Digit((b[6]&248)>>3),
      Digit(((b[6]&7)<<2)|((b[7]&192)>>6)),
      Digit((b[7]&62)>>1),
      Digit(((b[7]&1)<<4)|((b[8]&240)>>4)),
      Digit(((b[8]&15)<<1)|((b[9]&128)>>7))]
  {
    Quintet10(b);
    Quintet11(b);
    Quintet12(b);
    Quintet13(b);
    Quintet14(b);
  }

  lemma EncodeChars15To19(b: seq<byte>)
    requires |b| == 16
    ensures EncodeSpec(b)[15..20] == [
      Digit((b[9]&124)>>2),
      Digit(((b[9]&3)<<3)|((b[10]&224)>>5)),
      Digit(b[10]&31),
      Digit((b[11]&248)>>3),
      Digit(((b[11]&7)<<2)|((b[12]&192)>>6))]
  {
    Quintet15(b);
    Quintet16(b);
    Quintet17(b);
    Quintet18(b);
    Quintet19(b);
  }

  lemma EncodeChars20To25(b: seq<byte>)
    requires |b| == 16
    ensures EncodeSpec(b)[20..26] == [
      Digit((b[12]&62)>>1),
      Digit(((b[12]&1)<<4)|((b[13]&240)>>4)),
      Digit(((b[13]&15)<<1)|((b[14]&128)>>7)),
      Digit((b[14]&124)>>2),
      Digit(((b[14]&3)<<3)|((b[15]&224)>>5)),
      Digit(b[15]&31)]
  {
    Quintet20(b);
    Quintet21(b);
    Quintet22(b);
    Quintet23(b);
    Quintet24(b);
    Quintet25(b);
  }

  lemma StreamBytes0To3(d: seq<byte>)
    requires |d| == 26 && forall i :: 0 <= i < 26 ==> d[i] < 32
    ensures Group8(Stream(d))[0..4] == [
      (d[0] << 5) | d[1],
      (d[2] << 3) | (d[3] >> 2),
      (d[3] << 6) | (d[4] << 1) | (d[5] >> 4),
      (d[5] << 4) | (d[6] >> 1)]
  {
    StreamByte0(d);
    StreamByte1(d);
    StreamByte2(d);
    StreamByte3(d);
  }

  lemma StreamBytes4To7(d: seq<byte>)
    requires |d| == 26 && forall i :: 0 <= i < 26 ==> d[i] < 32
    ensures Group8(Stream(d))[4..8] == [
      (d[6] << 7) | (d[7] << 2) | (d[8] >> 3),
      (d[8] << 5) | d[9],
      (d[10] << 3) | (d[11] >> 2),
      (d[11] << 6) | (d[12] << 1) | (d[13] >> 4)]
  {
    StreamByte4(d);
    StreamByte5(d);
    StreamByte6(d);
    StreamByte7(d);
  }

  lemma StreamBytes8To11(d: seq<byte>)
    requires |d| == 26 && forall i :: 0 <= i < 26 ==> d[i] < 32
    ensures Group8(Stream(d))[8..12] == [
      (d[13] << 4) | (d[14] >> 1),
      (d[14] << 7) | (d[15] << 2) | (d[16] >> 3),
      (d[16] << 5) | d[17],
      (d[18] << 3) | (d[19] >> 2)]
  {
    StreamByte8(d);
    StreamByte9(d);
    StreamByte10(d);
    StreamByte11(d);
  }

  lemma StreamBytes12To15(d: seq<byte>)
    requires |d| == 26 && forall i :: 0 <= i < 26 ==> d[i] < 32
    ensures Group8(Stream(d))[12..16] == [
      (d[19] << 6) | (d[20] << 1) | (d[21] >> 4),
      (d[21] << 4) | (d[22] >> 1),
      (d[22] << 7) | (d[23] << 2) | (d[24] >> 3),
      (d[24] << 5) | d[25]]
  {
    StreamByte12(d);
    StreamByte13(d);
    StreamByte14(d);
    StreamByte15(d);
  }

  lemma SplitEncoding(s: seq<byte>)
    requires |s| == 26
    ensures s == s[..5] + s[5..10] + s[10..15] + s[15..20] + s[20..]
  {
  }

  lemma SplitIdentifier(b: seq<byte>)
    requires |b| == 16
    ensures b == b[..4] + b[4..8] + b[8..12] + b[12..]
  {
  }

  // ---------------------------------------------------------------------
  // Properties of the codec

  /** Digit(q) is one of the bytes the decoder accepts. */
  lemma DigitIsDigitChar(q: byte)
    requires q < 32
    ensures IsDigitChar(Digit(q))
  {
  }

  /**
   * An encoding is 26 accepted characters whose first is '0'..'7': the
   * two padding bits are zero.
   */
  lemma {:induction false} EncodeShape(b: seq<byte>)
    requires |b| == 16
    ensures |EncodeSpec(b)| == 26
    ensures forall i :: 0 <= i < 26 ==> IsDigitChar(EncodeSpec(b)[i])
    ensures 48 <= EncodeSpec(b)[0] <= 55
  {
    forall i | 0 <= i < 26
      ensures IsDigitChar(EncodeSpec(b)[i])
    {
      DigitIsDigitChar(Quintets(b)[i]);
    }
    Quintet0(b);
  }

  /**
   * How `Decode` fails: a length other than 26 is InvalidLength whatever
   * the bytes; otherwise a byte outside the digit set is InvalidCharacter;
   * otherwise it succeeds with 16 bytes. It never reports Overflow.
   */
  lemma {:induction false} DecodeOutcomes(s: seq<byte>)
    ensures DecodeSpec(s) == Failure(InvalidLength) <==> |s| != 26
    ensures DecodeSpec(s) == Failure(InvalidCharacter) <==>
      |s| == 26 && exists i :: 0 <= i < 26 && !IsDigitChar(s[i])
    ensures DecodeSpec(s).Success? <==>
      |s| == 26 && forall i :: 0 <= i < 26 ==> IsDigitChar(s[i])
    ensures DecodeSpec(s) != Failure(Overflow)
  {
    forall i | 0 <= i < |s|
      ensures Dec()[s[i]] != 0xFF <==> IsDigitChar(s[i])
    {
      DecAcceptsExactlyDigitChars(s[i]);
    }
  }

  /** Decoding an encoding gives the identifier back. */
  lemma {:induction false} DecodeEncode(b: seq<byte>)
    requires |b| == 16
    ensures DecodeSpec(EncodeSpec(b)) == Success(b)
  {
    var s := EncodeSpec(b);
    var q := Quintets(b);
    forall i | 0 <= i < 26
      ensures Dec()[s[i]] == q[i]
    {
      DecOfDigit(q[i]);
    }
    assert Values(s) == q;
    Bits5Group5(Padded(b));
    assert Stream(q) == Bits8(b);
    Group8Bits8(b);
  }

  /**
   * Encoding a decoded string gives the string back when its first
   * character is '0'..'7', that is, when its first two bits are zero.
   */
  lemma {:induction false} EncodeDecode(s: seq<byte>)
    requires DecodeSpec(s).Success? && s[0] <= 55
    ensures EncodeSpec(DecodeSpec(s).value) == s
  {
    var d := Values(s);
    forall i | 0 <= i < 26
      ensures d[i] < 32 && Digit(d[i]) == s[i]
    {
      DigitOfDec(s[i]);
    }
    assert d[0] < 8;
    var p := Bits5(d);
    assert p[..5] == QuintetBits(d[0]);
    var b := Group8(p[2..]);
    Bits8Group8(p[2..]);
    assert Padded(b) == p;
    Group5Bits5(d);
    assert Quintets(b) == d;
  }

  // ---------------------------------------------------------------------
  // The codec as written

  /**
   * `Encode`: fills the 26 positions of a fresh buffer, each with the
   * alphabet character of five bits of the input picked out by masks and
   * shifts, and returns the buffer as a string.
   */
  method Encode(src: seq<byte>) returns (s: seq<byte>)
    requires |src| == 16
    ensures s == EncodeSpec(src)
  {
    s := [Digit((src[0]&224)>>5),
         Digit(src[0]&31),
         Digit((src[1]&248)>>3),
         Digit(((src[1]&7)<<2)|((src[2]&192)>>6)),
         Digit((src[2]&62)>>1)]
      + [Digit(((src[2]&1)<<4)|((src[3]&240)>>4)),
         Digit(((src[3]&15)<<1)|((src[4]&128)>>7)),
         Digit((src[4]&124)>>2),
         Digit(((src[4]&3)<<3)|((src[5]&224)>>5)),
         Digit(src[5]&31)]
      + [Digit((src[6]&248)>>3),
         Digit(((src[6]&7)<<2)|((src[7]&192)>>6)),
         Digit((src[7]&62)>>1),
         Digit(((src[7]&1)<<4)|((src[8]&240)>>4)),
         Digit(((src[8]&15)<<1)|((src[9]&128)>>7))]
      + [Digit((src[9]&124)>>2),
         Digit(((src[9]&3)<<3)|((src[10]&224)>>5)),
         Digit(src[10]&31),
         Digit((src[11]&248)>>3),
         Digit(((src[11]&7)<<2)|((src[12]&192)>>6))]
      + [Digit((src[12]&62)>>1),
         Digit(((src[12]&1)<<4)|((src[13]&240)>>4)),
         Digit(((src[13]&15)<<1)|((src[14]&128)>>7)),
         Digit((src[14]&124)>>2),
         Digit(((src[14]&3)<<3)|((src[15]&224)>>5)),
         Digit(src[15]&31)];
    EncodeChars0To4(src);
    EncodeChars5To9(src);
    EncodeChars10To14(src);
    EncodeChars15To19(src);
    EncodeChars20To25(src);
    SplitEncoding(EncodeSpec(src));
  }

  /**
   * The 16 assignments of `Decode` that build the identifier from the
   * table entries d of the 26 characters, with shifts that truncate to
   * 8 bits: they compute the 128 bits after the first two bits.
   */
  method Assemble(d: seq<byte>) returns (id: seq<byte>)
    requires |d| == 26 && forall i :: 0 <= i < 26 ==> d[i] < 32
    ensures id == Group8(Stream(d))
  {
    id := [(d[0] << 5) | d[1],
          (d[2] << 3) | (d[3] >> 2),
          (d[3] << 6) | (d[4] << 1) | (d[5] >> 4),
          (d[5] << 4) | (d[6] >> 1)]
      + [(d[6] << 7) | (d[7] << 2) | (d[8] >> 3),
          (d[8] << 5) | d[9],
          (d[10] << 3) | (d[11] >> 2),
          (d[11] << 6) | (d[12] << 1) | (d[13] >> 4)]
      + [(d[13] << 4) | (d[14] >> 1),
          (d[14] << 7) | (d[15] << 2) | (d[16] >> 3),
          (d[16] << 5) | d[17],
          (d[18] << 3) | (d[19] >> 2)]
      + [(d[19] << 6) | (d[20] << 1) | (d[21] >> 4),
          (d[21] << 4) | (d[22] >> 1),
          (d[22] << 7) | (d[23] << 2) | (d[24] >> 3),
          (d[24] << 5) | d[25]];
    StreamBytes0To3(d);
    StreamBytes4To7(d);
    StreamBytes8To11(d);
    StreamBytes12To15(d);
    SplitIdentifier(Group8(Stream(d)));
  }

  /**
   * `Decode`: rejects a string that is not 26 bytes long, then one holding
   * a byte whose table entry is the sentinel, and otherwise assembles the
   * 16 bytes from the table entries of its characters.
   */
  method Decode(s: seq<byte>) returns (r: Result<seq<byte>, DecodeError>)
    ensures r == DecodeSpec(s)
  {
    if |s| != 26 {
      return Failure(InvalidLength);
    }
    var v := s;
    if !AllDigitChars(v) {
      return Failure(InvalidCharacter);
    }
    var d := Values(v);
    forall i | 0 <= i < 26
      ensures d[i] < 32
    {
      DigitOfDec(v[i]);
    }
    var id := Assemble(d);
    r := Success(id);
  }

  // ---------------------------------------------------------------------
  // A first character above '7'

  /** The string "8" followed by 25 zeros. */
  function OverflowingString(): (s: seq<byte>)
    ensures |s| == 26
  {
    [56] + seq(25, _ => 48)
  }

  lemma OverflowingValues()
    ensures AllDigitChars(OverflowingString())
    ensures forall i :: 0 <= i < 26 ==> Values(OverflowingString())[i] == if i == 0 then 8 else 0
  {
    DecOfDigit(8);
    DecOfDigit(0);
  }

  lemma OverflowingStream()
    ensures Group8(Stream([8] + seq(25, _ => 0))) == seq(16, _ => 0)
  {
    var d: seq<byte> := [8] + seq(25, _ => 0);
    StreamBytes0To3(d);
    StreamBytes4To7(d);
    StreamBytes8To11(d);
    StreamBytes12To15(d);
    SplitIdentifier(Group8(Stream(d)));
  }

  /**
   * `Decode` as written accepts "8000…0", whose first character sets a
   * bit above the 128 of an identifier: the bit is dropped, the string
   * decodes to the all-zero identifier (as "000…0" does), and encoding
   * that identifier does not give the string back.
   */
  lemma DecodeDropsOverflowBits()
    ensures DecodeSpec(OverflowingString()) == Success(seq(16, _ => 0))
    ensures EncodeSpec(seq(16, _ => 0)) != OverflowingString()
  {
    OverflowingValues();
    assert Values(OverflowingString()) == [8] + seq(25, _ => 0);
    OverflowingStream();
    Quintet0(seq(16, _ => 0));
  }

  /**
   * The decoding with the overflow check of the ULID reference decoder:
   * after the length and character checks, a first character above '7'
   * is rejected.
   */
  function DecodeStrictSpec(s: seq<byte>): (r: Result<seq<byte>, DecodeError>)
    ensures r.Success? ==> |r.value| == 16
  {
    if |s| != 26 then Failure(InvalidLength)
    else if !AllDigitChars(s) then Failure(InvalidCharacter)
    else if s[0] > 55 then Failure(Overflow)
    else Success(Group8(Stream(Values(s))))
  }

  /**
   * With the overflow check, decoding is exactly the inverse of encoding:
   * s decodes to b if and only if b encodes to s.
   */
  lemma {:induction false} DecodeStrictExact(s: seq<byte>, b: seq<byte>)
    requires |b| == 16
    ensures DecodeStrictSpec(s) == Success(b) <==> EncodeSpec(b) == s
  {
    if DecodeStrictSpec(s) == Success(b) {
      EncodeDecode(s);
    }
    if EncodeSpec(b) == s {
      DecodeEncode(b);
      EncodeShape(b);
    }
  }

  /** `Decode` preceded by the overflow check. */
  method DecodeStrict(s: seq<byte>) returns (r: Result<seq<byte>, DecodeError>)
    ensures r == DecodeStrictSpec(s)
  {
    if |s| == 26 && AllDigitChars(s) && s[0] > 55 {
      return Failure(Overflow);
    }
    r := Decode(s);
  }
}
