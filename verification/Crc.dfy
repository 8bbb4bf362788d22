/** The firmware checksum of ble/framing.py: CRC-16 with the reflected polynomial 0x8408
    (x^16 + x^12 + x^5 + 1), initial value 0, no final inversion.

    The sequence-level facts are proved for an arbitrary shift register, so that each of them
    uses only the algebraic law it needs; the register of the source is then shown to obey
    those laws, which is where the bit-level reasoning is confined. */
module Crc {

  // ------------------------------------------------------------------
  // Shift registers in general
  // ------------------------------------------------------------------

  /** A register that mixes an input symbol in with `mix` and then advances with `step`. */
  datatype Register<!R> = Register(zero: R, mix: (R, R) -> R, step: R -> R)

  /** The register content after a whole input, started from `c`. */
  function Absorb<R>(m: Register<R>, c: R, input: seq<R>): R
    decreases |input|
  {
    if input == [] then c else Absorb(m, m.step(m.mix(c, input[0])), input[1..])
  }

  /** Position-wise mix of two equally long inputs. */
  function MixAll<R>(m: Register<R>, a: seq<R>, b: seq<R>): (r: seq<R>)
    requires |a| == |b|
    ensures |r| == |a| && forall i :: 0 <= i < |r| ==> r[i] == m.mix(a[i], b[i])
  {
    seq(|a|, i requires 0 <= i < |a| => m.mix(a[i], b[i]))
  }

  ghost predicate MiddleAt<R>(m: Register<R>, a: R, b: R, c: R, d: R) {
    m.mix(m.mix(a, b), m.mix(c, d)) == m.mix(m.mix(a, c), m.mix(b, d))
  }

  ghost predicate StepAt<R>(m: Register<R>, a: R, b: R) {
    m.step(m.mix(a, b)) == m.mix(m.step(a), m.step(b))
  }

  /** The register is linear: mixing is an exchange law's worth of addition and stepping
      distributes over it. */
  ghost predicate Linear<R(!new)>(m: Register<R>) {
    && (forall a: R, b: R, c: R, d: R :: MiddleAt(m, a, b, c, d))
    && (forall a: R, b: R :: StepAt(m, a, b))
  }

  /** Zero input is invisible and stepping neither creates nor destroys zero. */
  ghost predicate ZeroLaws<R(!new)>(m: Register<R>) {
    && (forall c: R :: m.mix(c, m.zero) == c)
    && (forall c: R :: m.step(c) == m.zero <==> c == m.zero)
  }

  lemma {:induction false} AbsorbLinear<R(!new)>(m: Register<R>, c: R, d: R, a: seq<R>, b: seq<R>)
    requires Linear(m) && |a| == |b|
    ensures Absorb(m, m.mix(c, d), MixAll(m, a, b)) == m.mix(Absorb(m, c, a), Absorb(m, d, b))
    decreases |a|
  {
    if a != [] {
      assert MiddleAt(m, c, d, a[0], b[0]);
      assert StepAt(m, m.mix(c, a[0]), m.mix(d, b[0]));
      assert MixAll(m, a, b)[1..] == MixAll(m, a[1..], b[1..]);
      AbsorbLinear(m, m.step(m.mix(c, a[0])), m.step(m.mix(d, b[0])), a[1..], b[1..]);
    }
  }

  lemma {:induction false} AbsorbAppend<R>(m: Register<R>, c: R, a: seq<R>, b: seq<R>)
    ensures Absorb(m, c, a + b) == Absorb(m, Absorb(m, c, a), b)
    decreases |a|
  {
    if a == [] {
      assert a + b == b;
    } else {
      assert (a + b)[1..] == a[1..] + b;
      AbsorbAppend(m, m.step(m.mix(c, a[0])), a[1..], b);
    }
  }

  lemma AbsorbTwo<R>(m: Register<R>, c: R, x: R, y: R)
    ensures Absorb(m, c, [x, y]) == m.step(m.mix(m.step(m.mix(c, x)), y))
  {
    assert [x, y][1..] == [y];
    assert [y][1..] == [];
    assert Absorb(m, c, [x, y]) == Absorb(m, m.step(m.mix(c, x)), [y]);
  }

  ghost predicate AllZero<R>(m: Register<R>, input: seq<R>) {
    forall i :: 0 <= i < |input| ==> input[i] == m.zero
  }

  lemma {:induction false} ZerosKeepZeroness<R(!new)>(m: Register<R>, c: R, input: seq<R>)
    requires ZeroLaws(m) && AllZero(m, input)
    ensures Absorb(m, c, input) == m.zero <==> c == m.zero
    decreases |input|
  {
    if input != [] {
      ZerosKeepZeroness(m, m.step(c), input[1..]);
    }
  }

  /** A difference confined to two neighbouring symbols vanishes only if the register already
      returns to zero after those two. */
  lemma BurstRegister<R(!new)>(m: Register<R>, pre: seq<R>, x: R, y: R, post: seq<R>)
    requires ZeroLaws(m) && AllZero(m, pre) && AllZero(m, post)
    requires Absorb(m, m.zero, pre + [x, y] + post) == m.zero
    ensures m.step(m.mix(m.step(m.mix(m.zero, x)), y)) == m.zero
  {
    AbsorbAppend(m, m.zero, pre + [x, y], post);
    AbsorbAppend(m, m.zero, pre, [x, y]);
    ZerosKeepZeroness(m, m.zero, pre);
    ZerosKeepZeroness(m, Absorb(m, m.zero, [x, y]), post);
    AbsorbTwo(m, m.zero, x, y);
  }

  // ------------------------------------------------------------------
  // The register of the source
  // ------------------------------------------------------------------

  /** One turn of the source's inner bit loop. */
  function ShiftBit(c: bv16): bv16 {
    if c & 1 == 1 then (c >> 1) ^ 0x8408 else c >> 1
  }

  /** Eight turns of the inner loop: the register after one whole byte has left it. */
  function ShiftByte(c: bv16): bv16 {
    ShiftBit(ShiftBit(ShiftBit(ShiftBit(ShiftBit(ShiftBit(ShiftBit(ShiftBit(c))))))))
  }

  function XorWord(a: bv16, b: bv16): bv16 { a ^ b }

  const FIRMWARE := Register(0 as bv16, XorWord, ShiftByte)

  function WidenByte(b: bv8): bv16 { b as bv16 }

  function XorByte(a: bv8, b: bv8): bv8 { a ^ b }

  /** Each byte enters the 16-bit register zero-extended. */
  function Widen(data: seq<bv8>): (r: seq<bv16>)
    ensures |r| == |data| && forall i :: 0 <= i < |r| ==> r[i] == WidenByte(data[i])
  {
    seq(|data|, i requires 0 <= i < |data| => WidenByte(data[i]))
  }

  function Checksum(data: seq<bv8>): bv16 {
    Absorb(FIRMWARE, 0, Widen(data))
  }

  /** Position-wise exclusive or of two equally long inputs. */
  function Xor(a: seq<bv8>, b: seq<bv8>): (r: seq<bv8>)
    requires |a| == |b|
    ensures |r| == |a| && forall i :: 0 <= i < |r| ==> r[i] == XorByte(a[i], b[i])
  {
    seq(|a|, i requires 0 <= i < |a| => XorByte(a[i], b[i]))
  }

  function LowByte(c: bv16): bv8 { (c & 0xff) as bv8 }
  function HighByte(c: bv16): bv8 { (c >> 8) as bv8 }

  /** The two checksum bytes as they are appended to a packet, low byte first. */
  function Trailer(data: seq<bv8>): seq<bv8> {
    [LowByte(Checksum(data)), HighByte(Checksum(data))]
  }

  function ShiftBits(c: bv16, n: nat): bv16
    decreases n
  {
    if n == 0 then c else ShiftBits(ShiftBit(c), n - 1)
  }

  lemma EightShifts(c: bv16)
    ensures ShiftBits(c, 8) == ShiftByte(c)
  {
    assert forall d: bv16 :: ShiftBits(d, 2) == ShiftBit(ShiftBit(d));
    assert forall d: bv16 :: ShiftBits(d, 4) == ShiftBits(ShiftBit(ShiftBit(d)), 2);
    assert ShiftBits(c, 8) == ShiftBits(ShiftBit(ShiftBit(c)), 6);
    assert ShiftBits(ShiftBit(ShiftBit(c)), 6) == ShiftBits(ShiftBit(ShiftBit(ShiftBit(ShiftBit(c)))), 4);
  }

  /** The source's inner loop. */
  method ShiftEight(start: bv16) returns (crc: bv16)
    ensures crc == ShiftByte(start)
  {
    crc := start;
    var bit := 0;
    while bit < 8
      invariant 0 <= bit <= 8
      invariant ShiftBits(crc, 8 - bit) == ShiftBits(start, 8)
    {
      if crc & 0x0001 == 1 {
        crc := (crc >> 1) ^ 0x8408;
      } else {
        crc := crc >> 1;
      }
      bit := bit + 1;
    }
    EightShifts(start);
  }

  /** The source's byte loop. */
  method Crc16(data: seq<bv8>) returns (crc: bv16)
    ensures crc == Checksum(data)
  {
    crc := 0;
    var i := 0;
    ghost var wide := Widen(data);
    while i < |data|
      invariant 0 <= i <= |data|
      invariant Absorb(FIRMWARE, crc, wide[i..]) == Checksum(data)
    {
      crc := ShiftEight(XorWord(crc, WidenByte(data[i])));
      assert wide[i..][1..] == wide[i + 1..];
      i := i + 1;
    }
  }

  // ------------------------------------------------------------------
  // The bit-level laws
  // ------------------------------------------------------------------

  lemma XorPairs(a: bv16, b: bv16, p: bv16)
    ensures (a ^ p) ^ (b ^ p) == a ^ b
  {
  }

  lemma XorLeft(a: bv16, b: bv16, p: bv16)
    ensures (a ^ p) ^ b == (a ^ b) ^ p
  {
  }

  lemma XorRight(a: bv16, b: bv16, p: bv16)
    ensures a ^ (b ^ p) == (a ^ b) ^ p
  {
  }

  lemma XorCommutes(a: bv16, b: bv16)
    ensures XorWord(a, b) == XorWord(b, a)
  {
  }

  lemma XorAssociates(a: bv16, b: bv16, c: bv16)
    ensures XorWord(XorWord(a, b), c) == XorWord(a, XorWord(b, c))
  {
  }

  lemma XorMiddle(a: bv16, b: bv16, c: bv16, d: bv16)
    ensures XorWord(XorWord(a, b), XorWord(c, d)) == XorWord(XorWord(a, c), XorWord(b, d))
  {
    XorAssociates(a, b, XorWord(c, d));
    XorAssociates(b, c, d);
    XorCommutes(b, c);
    XorAssociates(c, b, d);
    XorAssociates(a, c, XorWord(b, d));
  }

  lemma ShiftXor(a: bv16, b: bv16)
    ensures (a ^ b) >> 1 == (a >> 1) ^ (b >> 1)
    ensures (a ^ b) & 1 == (a & 1) ^ (b & 1)
  {
  }

  lemma LowBit(a: bv16)
    ensures a & 1 == 1 || a & 1 == 0
  {
  }

  lemma ShiftBitLinear(a: bv16, b: bv16)
    ensures ShiftBit(XorWord(a, b)) == XorWord(ShiftBit(a), ShiftBit(b))
  {
    ShiftXor(a, b);
    LowBit(a);
    LowBit(b);
    XorPairs(a >> 1, b >> 1, 0x8408);
    XorLeft(a >> 1, b >> 1, 0x8408);
    XorRight(a >> 1, b >> 1, 0x8408);
  }

  /** Doing a linear step twice is linear. */
  lemma TwiceLinear<R(!new)>(m: Register<R>, twice: Register<R>)
    requires Linear(m) && twice.mix == m.mix && forall c: R :: twice.step(c) == m.step(m.step(c))
    ensures Linear(twice)
  {
    forall a: R, b: R, c: R, d: R
      ensures MiddleAt(twice, a, b, c, d)
    {
      assert MiddleAt(m, a, b, c, d);
    }
    forall a: R, b: R
      ensures StepAt(twice, a, b)
    {
      assert StepAt(m, a, b);
      assert StepAt(m, m.step(a), m.step(b));
    }
  }

  const ONE_BIT := Register(0 as bv16, XorWord, ShiftBit)

  lemma OneBitMiddle(a: bv16, b: bv16, c: bv16, d: bv16)
    ensures MiddleAt(ONE_BIT, a, b, c, d)
  {
    XorMiddle(a, b, c, d);
  }

  lemma OneBitStep(a: bv16, b: bv16)
    ensures StepAt(ONE_BIT, a, b)
  {
    ShiftBitLinear(a, b);
  }

  lemma OneBitLinear()
    ensures Linear(ONE_BIT)
  {
    forall a: bv16, b: bv16, c: bv16, d: bv16
      ensures MiddleAt(ONE_BIT, a, b, c, d)
    {
      OneBitMiddle(a, b, c, d);
    }
    forall a: bv16, b: bv16
      ensures StepAt(ONE_BIT, a, b)
    {
      OneBitStep(a, b);
    }
  }

  function ShiftTwo(c: bv16): bv16 { ShiftBit(ShiftBit(c)) }
  function ShiftFour(c: bv16): bv16 { ShiftTwo(ShiftTwo(c)) }

  lemma FirmwareLinear()
    ensures Linear(FIRMWARE)
  {
    OneBitLinear();
    var two := Register(0 as bv16, XorWord, ShiftTwo);
    var four := Register(0 as bv16, XorWord, ShiftFour);
    TwiceLinear(ONE_BIT, two);
    TwiceLinear(two, four);
    TwiceLinear(four, FIRMWARE);
  }

  lemma FirmwareZeroLaws()
    ensures ZeroLaws(FIRMWARE)
  {
    forall c: bv16
      ensures FIRMWARE.mix(c, FIRMWARE.zero) == c
    {
    }
    forall c: bv16
      ensures FIRMWARE.step(c) == FIRMWARE.zero <==> c == FIRMWARE.zero
    {
    }
  }

  /** Two bytes in a row cannot cancel each other in the register. */
  lemma PairKernel(x: bv8, y: bv8)
    requires ShiftByte(XorWord(ShiftByte(XorWord(0, WidenByte(x))), WidenByte(y))) == 0
    ensures x == 0 && y == 0
  {
  }

  lemma TrailerCancels(c: bv16)
    ensures ShiftByte(XorWord(ShiftByte(XorWord(c, WidenByte(LowByte(c)))), WidenByte(HighByte(c)))) == 0
  {
  }

  lemma WidenXor(a: bv8, b: bv8)
    ensures WidenByte(XorByte(a, b)) == XorWord(WidenByte(a), WidenByte(b))
    ensures XorWord(WidenByte(a), WidenByte(b)) == 0 <==> a == b
  {
  }

  lemma XorSelf(c: bv16)
    ensures XorWord(c, c) == 0
  {
  }

  // ------------------------------------------------------------------
  // What the checksum guarantees
  // ------------------------------------------------------------------

  lemma WidenMix(a: seq<bv8>, b: seq<bv8>)
    requires |a| == |b|
    ensures Widen(Xor(a, b)) == MixAll(FIRMWARE, Widen(a), Widen(b))
  {
    forall i | 0 <= i < |a|
      ensures Widen(Xor(a, b))[i] == MixAll(FIRMWARE, Widen(a), Widen(b))[i]
    {
      WidenXor(a[i], b[i]);
    }
  }

  /** The checksum of an exclusive or is the exclusive or of the checksums. */
  lemma ChecksumLinear(a: seq<bv8>, b: seq<bv8>)
    requires |a| == |b|
    ensures Checksum(Xor(a, b)) == XorWord(Checksum(a), Checksum(b))
  {
    FirmwareLinear();
    WidenMix(a, b);
    AbsorbLinear(FIRMWARE, 0, 0, Widen(a), Widen(b));
    XorSelf(0);
  }

  /** Two equally long inputs that agree outside bytes i and i + 1 share a checksum only if
      they are the same input. */
  lemma BurstDetected(a: seq<bv8>, b: seq<bv8>, i: nat)
    requires |a| == |b| && i + 1 < |a|
    requires forall k :: 0 <= k < |a| && k != i && k != i + 1 ==> a[k] == b[k]
    ensures Checksum(a) == Checksum(b) <==> a == b
  {
    if Checksum(a) == Checksum(b) {
      ChecksumLinear(a, b);
      XorSelf(Checksum(a));
      FirmwareZeroLaws();
      var d := Widen(Xor(a, b));
      forall k | 0 <= k < |a|
        ensures d[k] == 0 <==> a[k] == b[k]
      {
        WidenXor(a[k], b[k]);
      }
      assert d == d[..i] + [d[i], d[i + 1]] + d[i + 2..];
      BurstRegister(FIRMWARE, d[..i], d[i], d[i + 1], d[i + 2..]);
      PairKernel(Xor(a, b)[i], Xor(a, b)[i + 1]);
    }
  }

  lemma AbsorbTrailer(wide: seq<bv16>, c: bv16)
    requires c == Absorb(FIRMWARE, 0, wide)
    ensures Absorb(FIRMWARE, 0, wide + [WidenByte(LowByte(c)), WidenByte(HighByte(c))]) == 0
  {
    AbsorbAppend(FIRMWARE, 0, wide, [WidenByte(LowByte(c)), WidenByte(HighByte(c))]);
    AbsorbTwo(FIRMWARE, c, WidenByte(LowByte(c)), WidenByte(HighByte(c)));
    TrailerCancels(c);
  }

  /** A message followed by its own checksum has checksum zero. */
  lemma ResidueZero(data: seq<bv8>)
    ensures Checksum(data + Trailer(data)) == 0
  {
    var c := Checksum(data);
    AbsorbTrailer(Widen(data), c);
    assert Widen(data + Trailer(data)) == Widen(data) + [WidenByte(LowByte(c)), WidenByte(HighByte(c))];
  }

  // ------------------------------------------------------------------
  // Which code it is
  // ------------------------------------------------------------------

  /** A polynomial over GF(2) by its coefficients, the highest power first. */
  type Poly = seq<bool>

  /** x^16 + x^12 + x^5 + 1. */
  const GENERATOR: Poly :=
    [true, false, false, false, true, false, false, false, false, false, false, true, false, false, false, false, true]

  function Zeros(n: nat): (r: Poly)
    ensures |r| == n && forall i :: 0 <= i < n ==> !r[i]
  {
    seq(n, _ => false)
  }

  /** The sum, the second polynomial under the low powers of the first. */
  function AddLow(p: Poly, q: Poly): (r: Poly)
    requires |q| <= |p|
    ensures |r| == |p|
    ensures forall i :: 0 <= i < |p| ==> r[i] == if i < |p| - |q| then p[i] else p[i] != q[i - (|p| - |q|)]
  {
    seq(|p|, i requires 0 <= i < |p| => if i < |p| - |q| then p[i] else p[i] != q[i - (|p| - |q|)])
  }

  /** The sum, the second polynomial under the high powers of the first. */
  function AddHigh(p: Poly, q: Poly): (r: Poly)
    requires |q| <= |p|
    ensures |r| == |p|
    ensures forall i :: 0 <= i < |p| ==> r[i] == if i < |q| then p[i] != q[i] else p[i]
  {
    seq(|p|, i requires 0 <= i < |p| => if i < |q| then p[i] != q[i] else p[i])
  }

  /** q times the generator, power by power. */
  function TimesGenerator(q: Poly): (r: Poly)
    ensures |r| == |q| + 16
    decreases |q|
  {
    if q == [] then Zeros(16)
    else
      var rest := [false] + TimesGenerator(q[1..]);
      if q[0] then AddHigh(rest, GENERATOR) else rest
  }

  /** The low n bits of a word in the order of the wire, the lowest first. */
  function LowBits(c: bv16, n: nat): (r: Poly)
    ensures |r| == n
    decreases n, c
  {
    if n == 0 then [] else [c & 1 != 0] + LowBits(c >> 1, n - 1)
  }

  /** The message polynomial: all bits in the order of the wire, the first at the highest power. */
  function Message(data: seq<bv8>): (r: Poly)
    ensures |r| == 8 * |data|
  {
    if data == [] then [] else LowBits(WidenByte(data[0]), 8) + Message(data[1..])
  }

  /** A checksum as a polynomial, in the order it is sent. */
  function WordBits(c: bv16): (r: Poly)
    ensures |r| == 16
  {
    LowBits(c, 16)
  }

  /** Long division by the generator: what is left. */
  function Remainder(p: Poly): (r: Poly)
    requires |p| >= 16
    ensures |r| == 16
    decreases |p|
  {
    if |p| == 16 then p else Remainder(if p[0] then AddHigh(p, GENERATOR)[1..] else p[1..])
  }

  /** One bit enters the register. */
  function Feed(c: bv16, bit: bool): bv16 { ShiftBit(if bit then c ^ 1 else c) }

  function FeedAll(c: bv16, bits: Poly): bv16
    decreases |bits|
  {
    if bits == [] then c else FeedAll(Feed(c, bits[0]), bits[1..])
  }

  lemma {:induction false} FeedAppend(c: bv16, a: Poly, b: Poly)
    ensures FeedAll(c, a + b) == FeedAll(FeedAll(c, a), b)
    decreases |a|
  {
    if a == [] {
      assert a + b == b;
    } else {
      assert (a + b)[1..] == a[1..] + b;
      FeedAppend(Feed(c, a[0]), a[1..], b);
    }
  }

  function LowWord(bit: bool): bv16 { if bit then 1 else 0 }

  lemma LowBitApart(y: bv16)
    ensures y == XorWord(LowWord(y & 1 != 0), y & 0xfffe)
    ensures ShiftBit(y & 0xfffe) == y >> 1
  {
  }

  lemma FeedMixes(c: bv16, bit: bool)
    ensures Feed(c, bit) == ShiftBit(XorWord(c, LowWord(bit)))
  {
    if bit {
      assert LowWord(bit) == 1;
    } else {
      XorZero(c);
    }
  }

  lemma MixedApart(c: bv16, low: bv16, high: bv16, y: bv16)
    requires y == XorWord(low, high)
    ensures ShiftBit(XorWord(c, y)) == XorWord(ShiftBit(XorWord(c, low)), ShiftBit(high))
  {
    XorAssociates(c, low, high);
    ShiftBitLinear(XorWord(c, low), high);
  }

  /** A register with a word mixed in gives up the word's low bit first. */
  lemma MixedShift(c: bv16, y: bv16)
    ensures ShiftBit(XorWord(c, y)) == XorWord(Feed(c, y & 1 != 0), y >> 1)
  {
    LowBitApart(y);
    FeedMixes(c, y & 1 != 0);
    MixedApart(c, LowWord(y & 1 != 0), y & 0xfffe, y);
  }

  /** What is left of a word after n shifts. */
  function Shifted(c: bv16, n: nat): bv16
    decreases n
  {
    if n == 0 then c else Shifted(c >> 1, n - 1)
  }

  lemma {:induction false} ShiftsFeed(c: bv16, y: bv16, n: nat)
    ensures ShiftBits(XorWord(c, y), n) == XorWord(FeedAll(c, LowBits(y, n)), Shifted(y, n))
    decreases n
  {
    if n > 0 {
      MixedShift(c, y);
      ShiftsFeed(Feed(c, y & 1 != 0), y >> 1, n - 1);
      assert LowBits(y, n)[1..] == LowBits(y >> 1, n - 1);
    }
  }

  lemma BytesAreShort(b: bv8)
    ensures Shifted(WidenByte(b), 8) == 0
  {
  }

  /** A byte enters the register bit by bit. */
  lemma ByteFeeds(c: bv16, b: bv8)
    ensures ShiftByte(XorWord(c, WidenByte(b))) == FeedAll(c, LowBits(WidenByte(b), 8))
  {
    EightShifts(XorWord(c, WidenByte(b)));
    ShiftsFeed(c, WidenByte(b), 8);
    BytesAreShort(b);
    XorZero(FeedAll(c, LowBits(WidenByte(b), 8)));
  }

  lemma XorZero(c: bv16)
    ensures XorWord(c, 0) == c
  {
  }

  lemma {:induction false} MessageFeeds(c: bv16, data: seq<bv8>)
    ensures Absorb(FIRMWARE, c, Widen(data)) == FeedAll(c, Message(data))
    decreases |data|
  {
    if data != [] {
      ByteFeeds(c, data[0]);
      assert Widen(data)[1..] == Widen(data[1..]);
      FeedAppend(c, LowBits(WidenByte(data[0]), 8), Message(data[1..]));
      MessageFeeds(ShiftByte(XorWord(c, WidenByte(data[0]))), data[1..]);
    }
  }

  predicate IsXor(x: bv16, a: bv16, b: bv16) { x == a ^ b }

  lemma XorHalves(x: bv16, a: bv16, b: bv16)
    requires IsXor(x, a, b)
    ensures IsXor(x >> 1, a >> 1, b >> 1)
    ensures (x & 1 != 0) == ((a & 1 != 0) != (b & 1 != 0))
  {
  }

  /** The bits of a sum are the sums of the bits. */
  lemma {:induction false} BitsOfXor(x: bv16, a: bv16, b: bv16, n: nat)
    requires IsXor(x, a, b)
    ensures LowBits(x, n) == AddHigh(LowBits(a, n), LowBits(b, n))
    decreases n
  {
    if n > 0 {
      var y, c, d := x >> 1, a >> 1, b >> 1;
      XorHalves(x, a, b);
      BitsOfXor(y, c, d, n - 1);
      BitsOfSum(x, a, b, y, c, d, n);
    }
  }

  lemma BitsOfSum(x: bv16, a: bv16, b: bv16, y: bv16, c: bv16, d: bv16, n: nat)
    requires n > 0 && y == x >> 1 && c == a >> 1 && d == b >> 1 && (x & 1 != 0) == ((a & 1 != 0) != (b & 1 != 0))
    requires LowBits(y, n - 1) == AddHigh(LowBits(c, n - 1), LowBits(d, n - 1))
    ensures LowBits(x, n) == AddHigh(LowBits(a, n), LowBits(b, n))
  {
    SumOn(a & 1 != 0, b & 1 != 0, LowBits(c, n - 1), LowBits(d, n - 1));
  }

  lemma SumOn(a: bool, b: bool, p: Poly, q: Poly)
    requires |p| == |q|
    ensures AddHigh([a] + p, [b] + q) == [a != b] + AddHigh(p, q)
  {
  }

  lemma {:induction false} OneMoreBit(c: bv16, n: nat)
    ensures LowBits(c, n + 1) == LowBits(c, n) + [Shifted(c, n) & 1 != 0]
    decreases n
  {
    if n > 0 {
      OneMoreBit(c >> 1, n - 1);
    } else {
      assert LowBits(c >> 1, 0) == [];
    }
  }

  lemma AllShiftedOut(c: bv16)
    ensures Shifted(c, 16) == 0
  {
    var d := c >> 1 >> 1 >> 1 >> 1;
    var e := d >> 1 >> 1 >> 1 >> 1;
    var f := e >> 1 >> 1 >> 1 >> 1;
    assert Shifted(c, 16) == Shifted(d, 12);
    assert Shifted(d, 12) == Shifted(e, 8);
    assert Shifted(e, 8) == Shifted(f, 4);
    assert Shifted(f, 4) == f >> 1 >> 1 >> 1 >> 1;
  }

  /** Halving a word moves its polynomial up one power. */
  lemma HalfBits(c: bv16)
    ensures WordBits(c >> 1) == WordBits(c)[1..] + [false]
  {
    OneMoreBit(c >> 1, 15);
    AllShiftedOut(c);
    assert Shifted(c, 16) == Shifted(c >> 1, 15);
    assert WordBits(c)[1..] == LowBits(c >> 1, 15);
  }

  /** The word that is mixed in is the generator without its highest power. */
  lemma Taps()
    ensures WordBits(0x8408) == GENERATOR[1..]
  {
    BitsInTwo(0x8408, 4, 12);
    BitsInTwo(0x840, 4, 8);
    BitsInTwo(0x84, 4, 4);
    Nibble(0x8408);
    Nibble(0x840);
    Nibble(0x84);
    Nibble(8);
    assert WordBits(0x8408) == [false, false, false, true] + ([false, false, false, false] + ([false, false, true, false] + [false, false, false, true]));
  }

  lemma Nibble(c: bv16)
    ensures LowBits(c, 4) == [c & 1 != 0, (c >> 1) & 1 != 0, (c >> 1 >> 1) & 1 != 0, (c >> 1 >> 1 >> 1) & 1 != 0]
  {
    assert LowBits(c >> 1 >> 1 >> 1 >> 1, 0) == [];
    assert LowBits(c >> 1 >> 1 >> 1, 1) == [(c >> 1 >> 1 >> 1) & 1 != 0];
    assert LowBits(c >> 1 >> 1, 2) == [(c >> 1 >> 1) & 1 != 0] + LowBits(c >> 1 >> 1 >> 1, 1);
    assert LowBits(c >> 1, 3) == [(c >> 1) & 1 != 0] + LowBits(c >> 1 >> 1, 2);
  }

  lemma {:induction false} BitsInTwo(c: bv16, m: nat, n: nat)
    ensures LowBits(c, m + n) == LowBits(c, m) + LowBits(Shifted(c, m), n)
    decreases m
  {
    if m > 0 {
      BitsInTwo(c >> 1, m - 1, n);
    }
  }

  /** One turn of the loop moves the register up one power, and takes the generator off if
      something leaves at x^16. */
  lemma ShiftDivides(c: bv16)
    ensures var up := WordBits(c)[1..] + [false];
            WordBits(ShiftBit(c)) == if WordBits(c)[0] then AddHigh(up, GENERATOR[1..]) else up
  {
    LowBit(c);
    HalfBits(c);
    if c & 1 != 0 {
      BitsOfXor((c >> 1) ^ 0x8408, c >> 1, 0x8408, 16);
      Taps();
    }
  }

  lemma FlipLow(c: bv16)
    ensures WordBits(c ^ 1) == [!WordBits(c)[0]] + WordBits(c)[1..]
  {
    FlipHalf(c);
    assert WordBits(c)[1..] == LowBits(c >> 1, 15);
  }

  lemma FlipHalf(c: bv16)
    ensures (c ^ 1) >> 1 == c >> 1 && ((c ^ 1) & 1 != 0) == !(c & 1 != 0)
  {
  }

  /** One step of the long division, with the register `w` under the high powers: a bit is added
      to the register, the register moves up, and the generator is taken off. */
  lemma StepDivides(w: Poly, bits: Poly)
    requires |w| == 16 && bits != []
    ensures var p := AddHigh(bits + Zeros(16), w);
            var up := w[1..] + [false];
            var next := if bits[0] != w[0] then AddHigh(up, GENERATOR[1..]) else up;
            AddHigh(bits[1..] + Zeros(16), next) == if p[0] then AddHigh(p, GENERATOR)[1..] else p[1..]
  {
    var q := bits + Zeros(16);
    assert q[1..] == bits[1..] + Zeros(16) && !q[16 + |bits| - 1];
    var p := AddHigh(q, w);
    var up := w[1..] + [false];
    assert forall i :: 0 <= i < 16 ==> GENERATOR[1..][i] == GENERATOR[i + 1];
    assert AddHigh(q[1..], up) == p[1..];
    if p[0] {
      var next := AddHigh(up, GENERATOR[1..]);
      forall i | 0 <= i < |q| - 1
        ensures AddHigh(q[1..], next)[i] == AddHigh(p, GENERATOR)[i + 1]
      {
      }
    }
  }

  /** Feeding a bit is that step. */
  lemma FeedDivides(c: bv16, bits: Poly)
    requires bits != []
    ensures var p := AddHigh(bits + Zeros(16), WordBits(c));
            AddHigh(bits[1..] + Zeros(16), WordBits(Feed(c, bits[0]))) == if p[0] then AddHigh(p, GENERATOR)[1..] else p[1..]
  {
    var d := if bits[0] then c ^ 1 else c;
    FlipLow(c);
    ShiftDivides(d);
    assert WordBits(d)[1..] == WordBits(c)[1..];
    StepDivides(WordBits(c), bits);
  }

  lemma NoBits()
    ensures WordBits(0) == Zeros(16)
  {
    BitsOfXor(0, 0, 0, 16);
  }

  lemma {:induction false} FeedIsRemainder(c: bv16, bits: Poly)
    ensures Remainder(AddHigh(bits + Zeros(16), WordBits(c))) == WordBits(FeedAll(c, bits))
    decreases |bits|
  {
    if bits == [] {
      assert AddHigh(bits + Zeros(16), WordBits(c)) == WordBits(c);
    } else {
      FeedDivides(c, bits);
      FeedIsRemainder(Feed(c, bits[0]), bits[1..]);
    }
  }

  /** Every polynomial is a multiple of the generator plus its remainder, */
  lemma {:induction false} Division(p: Poly) returns (q: Poly)
    requires |p| >= 16
    ensures |q| == |p| - 16 && p == AddLow(TimesGenerator(q), Remainder(p))
    decreases |p|
  {
    if |p| == 16 {
      q := [];
    } else {
      var next := if p[0] then AddHigh(p, GENERATOR)[1..] else p[1..];
      var rest := Division(next);
      q := [p[0]] + rest;
      assert q[1..] == rest;
      MultipleOn(p[0], rest, Remainder(p));
      Back(p, next, AddLow(TimesGenerator(q), Remainder(p)));
    }
  }

  /** A step of the division can be taken back. */
  lemma Back(p: Poly, next: Poly, r: Poly)
    requires |p| == |r| > 16 && next == (if p[0] then AddHigh(p, GENERATOR)[1..] else p[1..]) && r[0] == p[0]
    requires r[1..] == if p[0] then AddHigh([false] + next, GENERATOR)[1..] else next
    ensures r == p
  {
    forall i | 1 <= i < |p|
      ensures r[i] == p[i]
    {
      assert r[i] == r[1..][i - 1] && next[i - 1] == ([false] + next)[i];
    }
  }

  /** A longer multiple, seen below its highest power. */
  lemma MultipleOn(top: bool, q: Poly, r: Poly)
    requires |r| == 16
    ensures var p, rest := AddLow(TimesGenerator([top] + q), r), AddLow(TimesGenerator(q), r);
            && p[0] == top
            && p[1..] == if top then AddHigh([false] + rest, GENERATOR)[1..] else rest
  {
    assert ([top] + q)[1..] == q;
    var p, rest := AddLow(TimesGenerator([top] + q), r), AddLow(TimesGenerator(q), r);
    forall i | 0 <= i < |rest|
      ensures p[i + 1] == if top then AddHigh([false] + rest, GENERATOR)[i + 1] else rest[i]
    {
    }
  }

  /** and by no other. */
  lemma {:induction false} OnlyRemainder(q: Poly, r: Poly)
    requires |r| == 16
    ensures Remainder(AddLow(TimesGenerator(q), r)) == r
    decreases |q|
  {
    var p := AddLow(TimesGenerator(q), r);
    if q == [] {
      assert p == r;
    } else {
      var rest := AddLow(TimesGenerator(q[1..]), r);
      assert q == [q[0]] + q[1..];
      MultipleOn(q[0], q[1..], r);
      var next := if p[0] then AddHigh(p, GENERATOR)[1..] else p[1..];
      Forth(p, rest);
      OnlyRemainder(q[1..], r);
    }
  }

  lemma Forth(p: Poly, rest: Poly)
    requires |p| == |rest| + 1 > 16
    requires p[1..] == if p[0] then AddHigh([false] + rest, GENERATOR)[1..] else rest
    ensures (if p[0] then AddHigh(p, GENERATOR)[1..] else p[1..]) == rest
  {
    forall i | 0 <= i < |rest|
      ensures (if p[0] then AddHigh(p, GENERATOR)[1..] else p[1..])[i] == rest[i]
    {
      assert p[i + 1] == p[1..][i] && rest[i] == ([false] + rest)[i + 1];
    }
  }

  /** The sum of a message times x^16 and its checksum is a multiple of x^16 + x^12 + x^5 + 1, and
      no other 16 bits have this property. */
  lemma ChecksumIsTheRemainder(data: seq<bv8>) returns (q: Poly)
    ensures |q| == 8 * |data|
    ensures Message(data) + Zeros(16) == AddLow(TimesGenerator(q), WordBits(Checksum(data)))
    ensures forall other: Poly, r: Poly ::
              (|other| == |q| && |r| == 16 && Message(data) + Zeros(16) == AddLow(TimesGenerator(other), r)
               ==> r == WordBits(Checksum(data)))
  {
    MessageFeeds(0, data);
    FeedIsRemainder(0, Message(data));
    var dividend := Message(data) + Zeros(16);
    NoBits();
    assert AddHigh(dividend, Zeros(16)) == dividend;
    q := Division(dividend);
    forall other: Poly, r: Poly | |other| == |q| && |r| == 16 && dividend == AddLow(TimesGenerator(other), r)
      ensures r == WordBits(Checksum(data))
    {
      OnlyRemainder(other, r);
    }
  }
}
