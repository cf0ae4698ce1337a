/** The digest used for cache file names, against its standard (FIPS 180-4). */
module Sha256 {
  type Byte = bv8
  type Word = bv32

  const K0: seq<Word> :=
    [0x428a2f98, 0x71374491, 0xb5c0fbcf, 0xe9b5dba5, 0x3956c25b, 0x59f111f1, 0x923f82a4, 0xab1c5ed5]
  const K1: seq<Word> :=
    [0xd807aa98, 0x12835b01, 0x243185be, 0x550c7dc3, 0x72be5d74, 0x80deb1fe, 0x9bdc06a7, 0xc19bf174]
  const K2: seq<Word> :=
    [0xe49b69c1, 0xefbe4786, 0x0fc19dc6, 0x240ca1cc, 0x2de92c6f, 0x4a7484aa, 0x5cb0a9dc, 0x76f988da]
  const K3: seq<Word> :=
    [0x983e5152, 0xa831c66d, 0xb00327c8, 0xbf597fc7, 0xc6e00bf3, 0xd5a79147, 0x06ca6351, 0x14292967]
  const K4: seq<Word> :=
    [0x27b70a85, 0x2e1b2138, 0x4d2c6dfc, 0x53380d13, 0x650a7354, 0x766a0abb, 0x81c2c92e, 0x92722c85]
  const K5: seq<Word> :=
    [0xa2bfe8a1, 0xa81a664b, 0xc24b8b70, 0xc76c51a3, 0xd192e819, 0xd6990624, 0xf40e3585, 0x106aa070]
  const K6: seq<Word> :=
    [0x19a4c116, 0x1e376c08, 0x2748774c, 0x34b0bcb5, 0x391c0cb3, 0x4ed8aa4a, 0x5b9cca4f, 0x682e6ff3]
  const K7: seq<Word> :=
    [0x748f82ee, 0x78a5636f, 0x84c87814, 0x8cc70208, 0x90befffa, 0xa4506ceb, 0xbef9a3f7, 0xc67178f2]

  const ROUND_CONSTANTS: seq<Word> := K0 + K1 + K2 + K3 + K4 + K5 + K6 + K7

  // Section 4.1.2: the functions of the standard, with each rotation written as two shifts.

  /** Addition of words, modulo 2^32. */
  function Sum(x: Word, y: Word): Word { x + y }

  function Sum4(p: Word, q: Word, r: Word, s: Word): Word { p + q + r + s }

  function Ch(x: Word, y: Word, z: Word): Word { (x & y) ^ (!x & z) }
  function Maj(x: Word, y: Word, z: Word): Word { (x & y) ^ (x & z) ^ (y & z) }
  function BigSigma0(x: Word): Word { ((x >> 2) | (x << 30)) ^ ((x >> 13) | (x << 19)) ^ ((x >> 22) | (x << 10)) }
  function BigSigma1(x: Word): Word { ((x >> 6) | (x << 26)) ^ ((x >> 11) | (x << 21)) ^ ((x >> 25) | (x << 7)) }
  function SmallSigma0(x: Word): Word { ((x >> 7) | (x << 25)) ^ ((x >> 18) | (x << 14)) ^ (x >> 3) }
  function SmallSigma1(x: Word): Word { ((x >> 17) | (x << 15)) ^ ((x >> 19) | (x << 13)) ^ (x >> 10) }

  /** Ch takes each bit of its second argument where the first has a 1, and of its third where it has a 0. */
  lemma ChChooses(x: Word, y: Word, z: Word, mask: Word)
    ensures x & mask == mask ==> Ch(x, y, z) & mask == y & mask
    ensures x & mask == 0 ==> Ch(x, y, z) & mask == z & mask
  {}

  /** Maj has exactly the bits that at least two of its arguments have. */
  lemma MajCounts(x: Word, y: Word, z: Word)
    ensures Maj(x, y, z) == (x & y) | (x & z) | (y & z)
  {}

  /** The four sigma functions as rotations and shifts of whole words. */
  lemma SigmasRotate(x: Word)
    ensures BigSigma0(x) == x.RotateRight(2) ^ x.RotateRight(13) ^ x.RotateRight(22)
    ensures BigSigma1(x) == x.RotateRight(6) ^ x.RotateRight(11) ^ x.RotateRight(25)
    ensures SmallSigma0(x) == x.RotateRight(7) ^ x.RotateRight(18) ^ (x >> 3)
    ensures SmallSigma1(x) == x.RotateRight(17) ^ x.RotateRight(19) ^ (x >> 10)
  {}

  // Section 5.1.1: padding.

  /** Big-endian bytes of a number, in a field of `width` bytes. */
  function BigEndian(n: nat, width: nat): (s: seq<Byte>)
    ensures |s| == width
  {
    if width == 0 then [] else BigEndian(n / 256, width - 1) + [(n % 256) as Byte]
  }

  function Power256(k: nat): (p: nat)
    ensures p > 0
  {
    if k == 0 then 1 else 256 * Power256(k - 1)
  }

  function FieldValue(s: seq<Byte>): nat {
    if s == [] then 0 else 256 * FieldValue(s[..|s| - 1]) + s[|s| - 1] as nat
  }

  lemma ByteRoundTrip(b: Byte)
    ensures (b as nat) as Byte == b
  {}

  lemma NextByte(b: Byte)
    requires b != 255
    ensures (b + 1) as nat == b as nat + 1
  {}

  lemma {:induction false} ByteHolds(n: nat)
    requires n < 256
    ensures (n as Byte) as nat == n
  {
    if n > 0 {
      var b := (n - 1) as Byte;
      ByteHolds(n - 1);
      NextByte(b);
      ByteRoundTrip(b + 1);
    }
  }

  /** A field holds a number modulo its range. */
  lemma {:induction false} FieldHolds(n: nat, width: nat)
    ensures FieldValue(BigEndian(n, width)) == n % Power256(width)
  {
    if width > 0 {
      var s := BigEndian(n, width);
      assert s[..|s| - 1] == BigEndian(n / 256, width - 1);
      FieldHolds(n / 256, width - 1);
      ByteHolds(n % 256);
      Digits(n, Power256(width - 1));
    }
  }

  lemma Digits(n: nat, p: nat)
    requires p > 0
    ensures n % (256 * p) == 256 * ((n / 256) % p) + n % 256
  {
    var q, r := (n / 256) / p, (n / 256) % p;
    assert n == 256 * (q * p + r) + n % 256;
    assert n == (256 * p) * q + (256 * r + n % 256) by {
      assert 256 * (q * p + r) == (256 * p) * q + 256 * r;
    }
    assert 0 <= 256 * r + n % 256 < 256 * p;
    Remainder(n, 256 * p, q, 256 * r + n % 256);
  }

  lemma Remainder(n: nat, d: nat, q: nat, r: nat)
    requires d > 0 && n == d * q + r && r < d
    ensures n % d == r
  {
    var e := n / d - q;
    Multiple(d, e);
    assert n == d * (n / d) + n % d;
    assert d * e == r - n % d by { assert d * (n / d) == d * q + d * e; }
  }

  lemma Multiple(d: nat, e: int)
    requires d > 0
    ensures e >= 1 ==> d * e >= d
    ensures e <= -1 ==> d * e + d <= 0
  {}

  /** How many zero bytes follow the 0x80 byte. */
  function ZeroCount(length: nat): (z: nat)
    ensures z < 64 && (length + 1 + z) % 64 == 56
  {
    (55 - length) % 64
  }

  function Zeros(n: nat): seq<Byte> {
    seq(n, i => 0)
  }

  function Padded(bytes: seq<Byte>): seq<Byte> {
    bytes + [0x80] + Zeros(ZeroCount(|bytes|)) + BigEndian(8 * |bytes|, 8)
  }

  lemma PaddedLength(bytes: seq<Byte>)
    ensures |Padded(bytes)| == |bytes| + 9 + ZeroCount(|bytes|)
    ensures |Padded(bytes)| % 64 == 0
    ensures Padded(bytes)[|Padded(bytes)| - 8..] == BigEndian(8 * |bytes|, 8)
    ensures Padded(bytes)[..|bytes|] == bytes
  {
    hide BigEndian;
    hide ZeroCount;
    WholeBlocks(|bytes| + 1 + ZeroCount(|bytes|));
  }

  lemma WholeBlocks(n: nat)
    requires n % 64 == 56
    ensures (n + 8) % 64 == 0
  {}

  /**
   * In bits: the padding is a one, then k zeros, then the length, where k is the least count that
   * leaves the length field at the end of a 512-bit block.
   */
  lemma PaddingIsLeast(length: nat, k: nat)
    ensures (8 * length + 1 + (7 + 8 * ZeroCount(length))) % 512 == 448
    ensures (8 * length + 1 + k) % 512 == 448 ==> k >= 7 + 8 * ZeroCount(length)
  {
    var z := ZeroCount(length);
    var m := (length + 1 + z) / 64;
    assert length + 1 + z == 64 * m + 56;
    if (8 * length + 1 + k) % 512 == 448 {
      var j := (8 * length + 1 + k) / 512;
      assert 8 * length + 1 + k == 512 * j + 448;
      assert k - 7 == 8 * (64 * j + 56 - length - 1);
    }
  }

  /** The length field is the bit length exactly when the message is shorter than 2^61 bytes. */
  lemma LengthField(bytes: seq<Byte>)
    ensures |Padded(bytes)| >= 8
    ensures FieldValue(Padded(bytes)[|Padded(bytes)| - 8..]) == 8 * |bytes| <==> |bytes| < 0x2000_0000_0000_0000
  {
    hide Padded;
    hide BigEndian;
    hide FieldValue;
    PaddedLength(bytes);
    FieldHolds(8 * |bytes|, 8);
    Power256Of8();
  }

  lemma Power256Of8()
    ensures Power256(8) == 0x1_0000_0000_0000_0000
  {
    assert Power256(2) == 0x1_0000;
    assert Power256(4) == 0x1_0000_0000;
    assert Power256(6) == 0x1_0000_0000_0000;
  }

  /** Padding loses nothing, whatever the length: the wrapped length field still tells lengths apart. */
  lemma PaddingInjective(a: seq<Byte>, b: seq<Byte>)
    requires Padded(a) == Padded(b)
    ensures a == b
  {
    hide Padded;
    hide ZeroCount;
    hide BigEndian;
    hide FieldValue;
    PaddedLength(a);
    PaddedLength(b);
    FieldHolds(8 * |a|, 8);
    FieldHolds(8 * |b|, 8);
    Power256Of8();
    SameLength(|a|, |b|);
  }

  lemma SameLength(m: nat, n: nat)
    requires (8 * m) % 0x1_0000_0000_0000_0000 == (8 * n) % 0x1_0000_0000_0000_0000
    requires m - n < 64 && n - m < 64
    ensures m == n
  {}

  /** The padding loop of the source. */
  method Pad(bytes: seq<Byte>) returns (padded: seq<Byte>)
    ensures padded == Padded(bytes)
  {
    padded := bytes + [0x80];
    ghost var zeros := 0;
    while |padded| % 64 != 56
      invariant zeros <= ZeroCount(|bytes|) && |padded| == |bytes| + 1 + zeros
      invariant padded == bytes + [0x80] + Zeros(zeros)
      decreases ZeroCount(|bytes|) - zeros
    {
      assert Zeros(zeros + 1) == Zeros(zeros) + [0];
      padded := padded + [0];
      zeros := zeros + 1;
    }
    NoneSooner(|bytes|, zeros);
    padded := padded + BigEndian(8 * |bytes|, 8);
  }

  lemma NoneSooner(length: nat, zeros: nat)
    requires zeros <= ZeroCount(length) && (length + 1 + zeros) % 64 == 56
    ensures zeros == ZeroCount(length)
  {}

  // Section 5.2.1: a block as sixteen words.

  type Block = b: seq<Byte> | |b| == 64 witness Zeros(64)

  function WordAt(block: Block, i: nat): Word
    requires i < 16
  {
    ((block[4 * i] as Word) << 24) | ((block[4 * i + 1] as Word) << 16)
    | ((block[4 * i + 2] as Word) << 8) | (block[4 * i + 3] as Word)
  }

  /** The bytes of a word are the bytes of the block, the first one highest. */
  lemma WordHoldsBytes(block: Block, i: nat)
    requires i < 16
    ensures WordAt(block, i) >> 24 == block[4 * i] as Word
    ensures (WordAt(block, i) >> 16) & 0xff == block[4 * i + 1] as Word
    ensures (WordAt(block, i) >> 8) & 0xff == block[4 * i + 2] as Word
    ensures WordAt(block, i) & 0xff == block[4 * i + 3] as Word
  {
    FourBytes(block[4 * i], block[4 * i + 1], block[4 * i + 2], block[4 * i + 3]);
  }

  lemma FourBytes(p: Byte, q: Byte, r: Byte, s: Byte)
    ensures var w := ((p as Word) << 24) | ((q as Word) << 16) | ((r as Word) << 8) | (s as Word);
            w >> 24 == p as Word && (w >> 16) & 0xff == q as Word && (w >> 8) & 0xff == r as Word
            && w & 0xff == s as Word
  {}

  // Section 6.2.2: the message schedule and the compression of one block.

  function W(block: Block, t: nat): Word {
    if t < 16 then WordAt(block, t)
    else Sum4(SmallSigma1(W(block, t - 2)), W(block, t - 7), SmallSigma0(W(block, t - 15)), W(block, t - 16))
  }

  datatype Vars = Vars(a: Word, b: Word, c: Word, d: Word, e: Word, f: Word, g: Word, h: Word)

  function Round(v: Vars, k: Word, w: Word): Vars {
    var t1 := Sum(Sum(Sum(Sum(v.h, BigSigma1(v.e)), Ch(v.e, v.f, v.g)), k), w);
    var t2 := Sum(BigSigma0(v.a), Maj(v.a, v.b, v.c));
    Vars(Sum(t1, t2), v.a, v.b, v.c, Sum(v.d, t1), v.e, v.f, v.g)
  }

  function Rounds(v: Vars, block: Block, t: nat): Vars
    requires t <= 64
  {
    if t == 0 then v else Round(Rounds(v, block, t - 1), ROUND_CONSTANTS[t - 1], W(block, t - 1))
  }

  function Plus(u: Vars, v: Vars): Vars {
    Vars(Sum(u.a, v.a), Sum(u.b, v.b), Sum(u.c, v.c), Sum(u.d, v.d),
         Sum(u.e, v.e), Sum(u.f, v.f), Sum(u.g, v.g), Sum(u.h, v.h))
  }

  function Compressed(v: Vars, block: Block): Vars {
    Plus(Rounds(v, block, 64), v)
  }

  const INITIAL: Vars :=
    Vars(0x6a09e667, 0xbb67ae85, 0x3c6ef372, 0xa54ff53a, 0x510e527f, 0x9b05688c, 0x1f83d9ab, 0x5be0cd19)

  function BlockAt(padded: seq<Byte>, i: nat): Block
    requires 64 * (i + 1) <= |padded|
  {
    padded[64 * i..64 * (i + 1)]
  }

  /** The hash value after the first `n` blocks. */
  function Hash(padded: seq<Byte>, n: nat): Vars
    requires 64 * n <= |padded|
  {
    if n == 0 then INITIAL else Compressed(Hash(padded, n - 1), BlockAt(padded, n - 1))
  }

  function Digest(bytes: seq<Byte>): Vars {
    Hash(Padded(bytes), |Padded(bytes)| / 64)
  }

  // Section 4.2.2 and 5.3.3: where the constants come from.

  const P0: seq<nat> := [2, 3, 5, 7, 11, 13, 17, 19]
  const P1: seq<nat> := [23, 29, 31, 37, 41, 43, 47, 53]
  const P2: seq<nat> := [59, 61, 67, 71, 73, 79, 83, 89]
  const P3: seq<nat> := [97, 101, 103, 107, 109, 113, 127, 131]
  const P4: seq<nat> := [137, 139, 149, 151, 157, 163, 167, 173]
  const P5: seq<nat> := [179, 181, 191, 193, 197, 199, 211, 223]
  const P6: seq<nat> := [227, 229, 233, 239, 241, 251, 257, 263]
  const P7: seq<nat> := [269, 271, 277, 281, 283, 293, 307, 311]

  const PRIMES: seq<nat> := P0 + P1 + P2 + P3 + P4 + P5 + P6 + P7

  const TWO_32: nat := 0x1_0000_0000

  /** x is the cube root of p, in units of 2^-32, rounded down. */
  predicate CubeRoot(p: nat, x: nat) {
    x * x * x <= p * (TWO_32 * TWO_32 * TWO_32) < (x + 1) * (x + 1) * (x + 1)
  }

  /** x is the square root of p, in units of 2^-32, rounded down. */
  predicate SquareRoot(p: nat, x: nat) {
    x * x <= p * (TWO_32 * TWO_32) < (x + 1) * (x + 1)
  }

  /** The first 32 bits after the point of the cube root of p. */
  ghost predicate CubeFraction(p: nat, k: Word) {
    exists x: nat :: CubeRoot(p, x) && x % TWO_32 == k as nat
  }

  ghost predicate SquareFraction(p: nat, k: Word) {
    exists x: nat :: SquareRoot(p, x) && x % TWO_32 == k as nat
  }

  lemma CubeWitness(p: nat, x: nat, k: Word)
    requires CubeRoot(p, x) && x % TWO_32 == k as nat
    ensures CubeFraction(p, k)
  {}

  lemma SquareWitness(p: nat, x: nat, k: Word)
    requires SquareRoot(p, x) && x % TWO_32 == k as nat
    ensures SquareFraction(p, k)
  {}

  lemma RoundConstants0()
    ensures AllCubeFractions(P0, K0)
  {
    hide CubeFraction;
    CubeWitness(2, 0x1428a2f98, 0x428a2f98);
    CubeWitness(3, 0x171374491, 0x71374491);
    CubeWitness(5, 0x1b5c0fbcf, 0xb5c0fbcf);
    CubeWitness(7, 0x1e9b5dba5, 0xe9b5dba5);
    CubeWitness(11, 0x23956c25b, 0x3956c25b);
    CubeWitness(13, 0x259f111f1, 0x59f111f1);
    CubeWitness(17, 0x2923f82a4, 0x923f82a4);
    CubeWitness(19, 0x2ab1c5ed5, 0xab1c5ed5);
  }

  lemma RoundConstants1()
    ensures AllCubeFractions(P1, K1)
  {
    hide CubeFraction;
    CubeWitness(23, 0x2d807aa98, 0xd807aa98);
    CubeWitness(29, 0x312835b01, 0x12835b01);
    CubeWitness(31, 0x3243185be, 0x243185be);
    CubeWitness(37, 0x3550c7dc3, 0x550c7dc3);
    CubeWitness(41, 0x372be5d74, 0x72be5d74);
    CubeWitness(43, 0x380deb1fe, 0x80deb1fe);
    CubeWitness(47, 0x39bdc06a7, 0x9bdc06a7);
    CubeWitness(53, 0x3c19bf174, 0xc19bf174);
  }

  lemma RoundConstants2()
    ensures AllCubeFractions(P2, K2)
  {
    hide CubeFraction;
    CubeWitness(59, 0x3e49b69c1, 0xe49b69c1);
    CubeWitness(61, 0x3efbe4786, 0xefbe4786);
    CubeWitness(67, 0x40fc19dc6, 0x0fc19dc6);
    CubeWitness(71, 0x4240ca1cc, 0x240ca1cc);
    CubeWitness(73, 0x42de92c6f, 0x2de92c6f);
    CubeWitness(79, 0x44a7484aa, 0x4a7484aa);
    CubeWitness(83, 0x45cb0a9dc, 0x5cb0a9dc);
    CubeWitness(89, 0x476f988da, 0x76f988da);
  }

  lemma RoundConstants3()
    ensures AllCubeFractions(P3, K3)
  {
    hide CubeFraction;
    CubeWitness(97, 0x4983e5152, 0x983e5152);
    CubeWitness(101, 0x4a831c66d, 0xa831c66d);
    CubeWitness(103, 0x4b00327c8, 0xb00327c8);
    CubeWitness(107, 0x4bf597fc7, 0xbf597fc7);
    CubeWitness(109, 0x4c6e00bf3, 0xc6e00bf3);
    CubeWitness(113, 0x4d5a79147, 0xd5a79147);
    CubeWitness(127, 0x506ca6351, 0x06ca6351);
    CubeWitness(131, 0x514292967, 0x14292967);
  }

  lemma RoundConstants4()
    ensures AllCubeFractions(P4, K4)
  {
    hide CubeFraction;
    CubeWitness(137, 0x527b70a85, 0x27b70a85);
    CubeWitness(139, 0x52e1b2138, 0x2e1b2138);
    CubeWitness(149, 0x54d2c6dfc, 0x4d2c6dfc);
    CubeWitness(151, 0x553380d13, 0x53380d13);
    CubeWitness(157, 0x5650a7354, 0x650a7354);
    CubeWitness(163, 0x5766a0abb, 0x766a0abb);
    CubeWitness(167, 0x581c2c92e, 0x81c2c92e);
    CubeWitness(173, 0x592722c85, 0x92722c85);
  }

  lemma RoundConstants5()
    ensures AllCubeFractions(P5, K5)
  {
    hide CubeFraction;
    CubeWitness(179, 0x5a2bfe8a1, 0xa2bfe8a1);
    CubeWitness(181, 0x5a81a664b, 0xa81a664b);
    CubeWitness(191, 0x5c24b8b70, 0xc24b8b70);
    CubeWitness(193, 0x5c76c51a3, 0xc76c51a3);
    CubeWitness(197, 0x5d192e819, 0xd192e819);
    CubeWitness(199, 0x5d6990624, 0xd6990624);
    CubeWitness(211, 0x5f40e3585, 0xf40e3585);
    CubeWitness(223, 0x6106aa070, 0x106aa070);
  }

  lemma RoundConstants6()
    ensures AllCubeFractions(P6, K6)
  {
    hide CubeFraction;
    CubeWitness(227, 0x619a4c116, 0x19a4c116);
    CubeWitness(229, 0x61e376c08, 0x1e376c08);
    CubeWitness(233, 0x62748774c, 0x2748774c);
    CubeWitness(239, 0x634b0bcb5, 0x34b0bcb5);
    CubeWitness(241, 0x6391c0cb3, 0x391c0cb3);
    CubeWitness(251, 0x64ed8aa4a, 0x4ed8aa4a);
    CubeWitness(257, 0x65b9cca4f, 0x5b9cca4f);
    CubeWitness(263, 0x6682e6ff3, 0x682e6ff3);
  }

  lemma RoundConstants7()
    ensures AllCubeFractions(P7, K7)
  {
    hide CubeFraction;
    CubeWitness(269, 0x6748f82ee, 0x748f82ee);
    CubeWitness(271, 0x678a5636f, 0x78a5636f);
    CubeWitness(277, 0x684c87814, 0x84c87814);
    CubeWitness(281, 0x68cc70208, 0x8cc70208);
    CubeWitness(283, 0x690befffa, 0x90befffa);
    CubeWitness(293, 0x6a4506ceb, 0xa4506ceb);
    CubeWitness(307, 0x6bef9a3f7, 0xbef9a3f7);
    CubeWitness(311, 0x6c67178f2, 0xc67178f2);
  }

  ghost predicate AllCubeFractions(ps: seq<nat>, ks: seq<Word>) {
    |ps| == |ks| && forall j :: 0 <= j < |ps| ==> CubeFraction(ps[j], ks[j])
  }

  lemma FractionsAppend(p: seq<nat>, k: seq<Word>, q: seq<nat>, l: seq<Word>)
    requires AllCubeFractions(p, k) && AllCubeFractions(q, l)
    ensures AllCubeFractions(p + q, k + l)
  {
    hide CubeFraction;
  }

  lemma RowsAppend(p0: seq<nat>, p1: seq<nat>, p2: seq<nat>, p3: seq<nat>,
                   p4: seq<nat>, p5: seq<nat>, p6: seq<nat>, p7: seq<nat>,
                   k0: seq<Word>, k1: seq<Word>, k2: seq<Word>, k3: seq<Word>,
                   k4: seq<Word>, k5: seq<Word>, k6: seq<Word>, k7: seq<Word>)
    requires AllCubeFractions(p0, k0)
    requires AllCubeFractions(p1, k1)
    requires AllCubeFractions(p2, k2)
    requires AllCubeFractions(p3, k3)
    requires AllCubeFractions(p4, k4)
    requires AllCubeFractions(p5, k5)
    requires AllCubeFractions(p6, k6)
    requires AllCubeFractions(p7, k7)
    ensures AllCubeFractions(p0 + p1 + p2 + p3 + p4 + p5 + p6 + p7, k0 + k1 + k2 + k3 + k4 + k5 + k6 + k7)
  {
    hide AllCubeFractions;
    FractionsAppend(p0, k0, p1, k1);
    FractionsAppend(p0 + p1, k0 + k1, p2, k2);
    FractionsAppend(p0 + p1 + p2, k0 + k1 + k2, p3, k3);
    FractionsAppend(p0 + p1 + p2 + p3, k0 + k1 + k2 + k3, p4, k4);
    FractionsAppend(p0 + p1 + p2 + p3 + p4, k0 + k1 + k2 + k3 + k4, p5, k5);
    FractionsAppend(p0 + p1 + p2 + p3 + p4 + p5, k0 + k1 + k2 + k3 + k4 + k5, p6, k6);
    FractionsAppend(p0 + p1 + p2 + p3 + p4 + p5 + p6, k0 + k1 + k2 + k3 + k4 + k5 + k6, p7, k7);
  }

  /** The round constants are the fractions of the cube roots of the primes, in order. */
  lemma RoundConstantsAreCubeRoots()
    ensures AllCubeFractions(PRIMES, ROUND_CONSTANTS)
  {
    hide AllCubeFractions;
    RoundConstants0();
    RoundConstants1();
    RoundConstants2();
    RoundConstants3();
    RoundConstants4();
    RoundConstants5();
    RoundConstants6();
    RoundConstants7();
    RowsAppend(P0, P1, P2, P3, P4, P5, P6, P7, K0, K1, K2, K3, K4, K5, K6, K7);
  }

  /** The initial hash value holds the fractions of the square roots of the first eight primes. */
  lemma InitialIsSquareRoots(i: nat)
    requires i < 8
    ensures SquareFraction(P0[i], Words(INITIAL)[i])
  {
    hide SquareFraction;
    SquareWitness(2, 0x16a09e667, 0x6a09e667);
    SquareWitness(3, 0x1bb67ae85, 0xbb67ae85);
    SquareWitness(5, 0x23c6ef372, 0x3c6ef372);
    SquareWitness(7, 0x2a54ff53a, 0xa54ff53a);
    SquareWitness(11, 0x3510e527f, 0x510e527f);
    SquareWitness(13, 0x39b05688c, 0x9b05688c);
    SquareWitness(17, 0x41f83d9ab, 0x1f83d9ab);
    SquareWitness(19, 0x45be0cd19, 0x5be0cd19);
  }

  // The code: rotations by the machine operation, arrays updated in place.

  method ScheduleMix0(x: Word) returns (s0: Word)
    ensures s0 == SmallSigma0(x)
  {
    s0 := x.RotateRight(7) ^ x.RotateRight(18) ^ (x >> 3);
  }

  method ScheduleMix1(x: Word) returns (s1: Word)
    ensures s1 == SmallSigma1(x)
  {
    s1 := x.RotateRight(17) ^ x.RotateRight(19) ^ (x >> 10);
  }

  method RoundMix0(a: Word) returns (s0: Word)
    ensures s0 == BigSigma0(a)
  {
    s0 := a.RotateRight(2) ^ a.RotateRight(13) ^ a.RotateRight(22);
  }

  method RoundMix1(e: Word) returns (s1: Word)
    ensures s1 == BigSigma1(e)
  {
    s1 := e.RotateRight(6) ^ e.RotateRight(11) ^ e.RotateRight(25);
  }

  /** The code adds the four schedule terms in another order than the standard. */
  lemma Reorder(p: Word, q: Word, r: Word, s: Word)
    ensures Sum4(p, q, r, s) == Sum4(s, r, q, p)
  {}

  lemma WFrom16(block: Block, t: nat)
    requires t >= 16
    ensures W(block, t) == Sum4(W(block, t - 16), SmallSigma0(W(block, t - 15)), W(block, t - 7),
                                SmallSigma1(W(block, t - 2)))
  {
    hide Sum4;
    hide SmallSigma0;
    hide SmallSigma1;
    Reorder(W(block, t - 16), SmallSigma0(W(block, t - 15)), W(block, t - 7), SmallSigma1(W(block, t - 2)));
  }

  lemma WBelow16(block: Block, t: nat)
    requires t < 16
    ensures W(block, t) == WordAt(block, t)
  {
    hide WordAt;
  }

  method Schedule(block: Block) returns (words: array<Word>)
    ensures fresh(words) && words.Length == 64 && forall t :: 0 <= t < 64 ==> words[t] == W(block, t)
  {
    hide Sum4;
    hide SmallSigma0;
    hide SmallSigma1;
    hide WordAt;
    hide W;
    words := new Word[64](i => 0);
    for index := 0 to 16
      invariant forall t :: 0 <= t < index ==> words[t] == W(block, t)
    {
      WBelow16(block, index);
      words[index] := WordAt(block, index);
    }
    for index := 16 to 64
      invariant forall t :: 0 <= t < index ==> words[t] == W(block, t)
    {
      var s0 := ScheduleMix0(words[index - 15]);
      var s1 := ScheduleMix1(words[index - 2]);
      WFrom16(block, index);
      words[index] := Sum4(words[index - 16], s0, words[index - 7], s1);
    }
  }

  ghost predicate Holds(state: array<Word>, v: Vars)
    reads state
  {
    state.Length == 8 && state[..] == Words(v)
  }

  lemma RoundsStep(v: Vars, block: Block, t: nat)
    requires t < 64
    ensures Rounds(v, block, 0) == v
    ensures Rounds(v, block, t + 1) == Round(Rounds(v, block, t), ROUND_CONSTANTS[t], W(block, t))
  {
    hide Round;
    hide W;
  }

  /** The working variables go through sixty-four rounds and are then added to the state. */
  method Compress(state: array<Word>, ghost before: Vars, block: Block)
    requires Holds(state, before)
    modifies state
    ensures Holds(state, Compressed(before, block))
  {
    hide Sum;
    hide Rounds;
    hide W;
    hide BigSigma0;
    hide BigSigma1;
    hide Ch;
    hide Maj;
    var words := Schedule(block);
    var a, b, c, d, e, f, g, h := state[0], state[1], state[2], state[3], state[4], state[5], state[6], state[7];
    RoundsStep(before, block, 0);
    for index := 0 to 64
      invariant Holds(state, before)
      invariant forall t :: 0 <= t < 64 ==> words[t] == W(block, t)
      invariant Vars(a, b, c, d, e, f, g, h) == Rounds(before, block, index)
    {
      RoundsStep(before, block, index);
      var s1 := RoundMix1(e);
      var choice := Ch(e, f, g);
      var temp1 := Sum(Sum(Sum(Sum(h, s1), choice), ROUND_CONSTANTS[index]), words[index]);
      var s0 := RoundMix0(a);
      var majority := Maj(a, b, c);
      var temp2 := Sum(s0, majority);
      h := g;
      g := f;
      f := e;
      e := Sum(d, temp1);
      d := c;
      c := b;
      b := a;
      a := Sum(temp1, temp2);
    }
    AddUpdates(state, before, Vars(a, b, c, d, e, f, g, h));
  }

  method AddUpdates(state: array<Word>, ghost before: Vars, after: Vars)
    requires Holds(state, before)
    modifies state
    ensures Holds(state, Plus(after, before))
  {
    hide Sum;
    var updates := Words(after);
    for index := 0 to 8
      invariant state.Length == 8
      invariant forall j :: 0 <= j < index ==> state[j] == Sum(updates[j], Words(before)[j])
      invariant forall j :: index <= j < 8 ==> state[j] == Words(before)[j]
    {
      Commutes(state[index], updates[index]);
      state[index] := Sum(state[index], updates[index]);
    }
  }

  lemma Commutes(x: Word, y: Word)
    ensures Sum(x, y) == Sum(y, x)
  {}

  // Output: eight words of eight lower-case hexadecimal digits.

  const DIGITS: string := "0123456789abcdef"

  function HexDigit(d: bv4): char {
    DIGITS[d as nat]
  }

  function HexWord(w: Word): (s: string)
    ensures |s| == 8
  {
    [HexDigit((w >> 28) as bv4), HexDigit(((w >> 24) & 15) as bv4),
     HexDigit(((w >> 20) & 15) as bv4), HexDigit(((w >> 16) & 15) as bv4),
     HexDigit(((w >> 12) & 15) as bv4), HexDigit(((w >> 8) & 15) as bv4),
     HexDigit(((w >> 4) & 15) as bv4), HexDigit((w & 15) as bv4)]
  }

  function Hex(words: seq<Word>): string {
    if words == [] then "" else Hex(words[..|words| - 1]) + HexWord(words[|words| - 1])
  }

  /** The file name digest: the standard's hash of the bytes, in hexadecimal. */
  method Sha256Hex(bytes: seq<Byte>) returns (hex: string)
    ensures hex == Hex(Words(Digest(bytes))) && |hex| == 64
  {
    hide Padded;
    hide Compressed;
    hide HexWord;
    var padded := Pad(bytes);
    PaddedLength(bytes);
    var state := new Word[8][0x6a09e667, 0xbb67ae85, 0x3c6ef372, 0xa54ff53a,
                             0x510e527f, 0x9b05688c, 0x1f83d9ab, 0x5be0cd19];
    for i := 0 to |padded| / 64
      invariant Holds(state, Hash(padded, i))
    {
      Compress(state, Hash(padded, i), BlockAt(padded, i));
    }
    hex := "";
    for i := 0 to 8
      invariant Holds(state, Digest(bytes))
      invariant hex == Hex(state[..i]) && |hex| == 8 * i
    {
      assert state[..i + 1][..i] == state[..i];
      hex := hex + HexWord(state[i]);
    }
    assert state[..8] == Words(Digest(bytes));
  }

  function Words(v: Vars): seq<Word> {
    [v.a, v.b, v.c, v.d, v.e, v.f, v.g, v.h]
  }

  // The digest names a file, so different hash values must give different names.

  lemma DigitsDiffer(c: bv4, d: bv4)
    requires HexDigit(c) == HexDigit(d)
    ensures c == d
  {
    assert forall i, j :: 0 <= i < j < 16 ==> DIGITS[i] != DIGITS[j];
    assert c as nat == d as nat;
  }

  lemma NibblesMakeWord(u: Word, v: Word)
    requires u >> 28 == v >> 28 && (u >> 24) & 15 == (v >> 24) & 15 && (u >> 20) & 15 == (v >> 20) & 15
    requires (u >> 16) & 15 == (v >> 16) & 15 && (u >> 12) & 15 == (v >> 12) & 15
    requires (u >> 8) & 15 == (v >> 8) & 15 && (u >> 4) & 15 == (v >> 4) & 15 && u & 15 == v & 15
    ensures u == v
  {}

  lemma HexWordInjective(u: Word, v: Word)
    requires HexWord(u) == HexWord(v)
    ensures u == v
  {
    hide HexDigit;
    var s, t := HexWord(u), HexWord(v);
    assert forall i :: 0 <= i < 8 ==> s[i] == t[i];
    DigitsDiffer((u >> 28) as bv4, (v >> 28) as bv4);
    DigitsDiffer(((u >> 24) & 15) as bv4, ((v >> 24) & 15) as bv4);
    DigitsDiffer(((u >> 20) & 15) as bv4, ((v >> 20) & 15) as bv4);
    DigitsDiffer(((u >> 16) & 15) as bv4, ((v >> 16) & 15) as bv4);
    DigitsDiffer(((u >> 12) & 15) as bv4, ((v >> 12) & 15) as bv4);
    DigitsDiffer(((u >> 8) & 15) as bv4, ((v >> 8) & 15) as bv4);
    DigitsDiffer(((u >> 4) & 15) as bv4, ((v >> 4) & 15) as bv4);
    DigitsDiffer((u & 15) as bv4, (v & 15) as bv4);
    NibblesMakeWord(u, v);
  }

  /** Equal names mean equal hash values. */
  lemma {:induction false} HexInjective(u: seq<Word>, v: seq<Word>)
    requires |u| == |v| && Hex(u) == Hex(v)
    ensures u == v
  {
    hide HexWord;
    if u != [] {
      var n := |u| - 1;
      HexLength(u[..n]);
      HexLength(v[..n]);
      assert Hex(u)[..8 * n] == Hex(u[..n]) && Hex(v)[..8 * n] == Hex(v[..n]);
      assert Hex(u)[8 * n..] == HexWord(u[n]) && Hex(v)[8 * n..] == HexWord(v[n]);
      HexInjective(u[..n], v[..n]);
      HexWordInjective(u[n], v[n]);
      assert u == u[..n] + [u[n]] && v == v[..n] + [v[n]];
    }
  }

  lemma {:induction false} HexLength(u: seq<Word>)
    ensures |Hex(u)| == 8 * |u|
  {
    if u != [] { HexLength(u[..|u| - 1]); }
  }
}
