/**
 * OpenTherm frame layout (32 bits, bit 31 sent first):
 *   bit 31      even parity over the whole frame
 *   bits 30..28 message type
 *   bits 27..24 spare, always zero
 *   bits 23..16 Data-ID
 *   bits 15..0  Data-Value
 *
 * The C driver keeps the frame in a `uint32_t`, the type and the Data-ID in
 * `uint8_t` and the value in `uint16_t`; they are modelled as `bv32`, `bv8`
 * and `bv16` so that shifts, masks and the wrapping `+` are exact.
 */
module Frame {

  /** The message fields handed to `communicate` and returned by `complete`. */
  datatype Message = Message(msgType: bv8, id: bv8, data: bv16)

  /** Bit `i` of `x`, written as the driver tests it: `x & bit(i)`. */
  predicate Bit(x: bv32, i: bv8)
    requires i < 32
  {
    x & (1 << i) != 0
  }

  /** Exclusive-or of bits 0 .. n-1 of `x`. */
  function XorBits(x: bv32, n: bv8): bool
    requires n <= 32
    decreases n
  {
    if n == 0 then false else XorBits(x, n - 1) != Bit(x, n - 1)
  }

  /** Number of one-bits among bits 0 .. n-1 of `x`. */
  function PopCount(x: bv32, n: bv8): nat
    requires n <= 32
    decreases n
  {
    if n == 0 then 0 else PopCount(x, n - 1) + (if Bit(x, n - 1) then 1 else 0)
  }

  /** A frame whose total number of one-bits is even. */
  predicate EvenParity(f: bv32) {
    PopCount(f, 32) % 2 == 0
  }

  /** `(uint32_t)type<<28 + (uint32_t)id<<16 + data`, wrapping like `uint32_t`. */
  function Compose(msgType: bv8, id: bv8, data: bv16): bv32 {
    ((msgType as bv32) << 28) + ((id as bv32) << 16) + (data as bv32)
  }

  /** `tmp |= par ? bit(31) : 0` where `par` is the exclusive-or of bits
      0..30 of `tmp`. */
  function WithParity(tmp: bv32): bv32 {
    if XorBits(tmp, 31) then tmp | (1 << 31) else tmp
  }

  /** The frame `communicate` stores in `buf`. */
  function Encode(msgType: bv8, id: bv8, data: bv16): bv32 {
    WithParity(Compose(msgType, id, data))
  }

  /** The extraction in `complete`: `data = buf & 0xFFFF`, then `id` from the
      word shifted right by 16, then `type` from it shifted right by 12 more. */
  function Decode(f: bv32): Message {
    var hi := f >> 16;
    Message(((hi >> 12) & 7) as bv8, (hi & 0xFF) as bv8, (f & 0xFFFF) as bv16)
  }

  /** A response type whose bit 1 is set (INVALID-DATA, reserved,
      DATA-INVALID, UNKNOWN-DATAID) is not used to update device fields. */
  predicate IsErrorType(msgType: bv8) {
    msgType & 0x2 != 0
  }

  lemma ErrorTypes(msgType: bv8)
    requires msgType <= 7
    ensures IsErrorType(msgType) <==> msgType in {2, 3, 6, 7}
    ensures !IsErrorType(msgType) <==> msgType in {0, 1, 4, 5}
  {
  }

  /** The parity accumulated over n bits is the low bit of their count. */
  lemma {:induction false} PopCountParity(x: bv32, n: bv8)
    requires n <= 32
    ensures PopCount(x, n) % 2 == 1 <==> XorBits(x, n)
    decreases n
  {
    if n > 0 {
      PopCountParity(x, n - 1);
    }
  }

  /** A word has even parity exactly when bit 31 is the exclusive-or of
      bits 0..30: the check `complete` makes on a received frame. */
  lemma ParityTop(f: bv32)
    ensures EvenParity(f) <==> XorBits(f, 31) == Bit(f, 31)
  {
    PopCountParity(f, 31);
  }

  /** Two words that agree on bits 0 .. n-1 have the same count and the same
      parity there. */
  lemma {:induction false} AgreeBelow(x: bv32, y: bv32, n: bv8)
    requires n <= 32
    requires forall i: bv8 :: i < n ==> Bit(x, i) == Bit(y, i)
    ensures PopCount(x, n) == PopCount(y, n)
    ensures XorBits(x, n) == XorBits(y, n)
    decreases n
  {
    if n > 0 {
      AgreeBelow(x, y, n - 1);
    }
  }

  lemma SetTopBit(x: bv32, i: bv8)
    requires i < 31
    ensures Bit(x | (1 << 31), i) == Bit(x, i)
    ensures Bit(x & 0x7FFF_FFFF, i) == Bit(x, i)
  {
  }

  /** The low `n` bits set. */
  function Mask(n: bv8): bv32
    requires n <= 32
  {
    if n == 32 then 0xFFFF_FFFF else (1 << n) - 1
  }

  lemma MaskStep(n: bv8)
    requires 0 < n <= 32
    ensures Mask(n) == Mask(n - 1) | (1 << (n - 1))
  {
  }

  lemma AgreeStep(x: bv32, y: bv32, n: bv8)
    requires 0 < n <= 32
    requires x & Mask(n - 1) == y & Mask(n - 1)
    requires Bit(x, n - 1) == Bit(y, n - 1)
    ensures x & Mask(n) == y & Mask(n)
  {
    MaskStep(n);
  }

  lemma {:induction false} AgreeMasked(x: bv32, y: bv32, n: bv8)
    requires n <= 32
    requires forall i: bv8 :: i < n ==> Bit(x, i) == Bit(y, i)
    ensures x & Mask(n) == y & Mask(n)
    decreases n
  {
    if n > 0 {
      AgreeMasked(x, y, n - 1);
      AgreeStep(x, y, n);
    }
  }

  /** Two words with the same 32 bits are equal. */
  lemma WordExt(x: bv32, y: bv32)
    requires forall i: bv8 :: i < 32 ==> Bit(x, i) == Bit(y, i)
    ensures x == y
  {
    AgreeMasked(x, y, 32);
  }

  /** For a type of at most three bits the composed word leaves bit 31 clear. */
  lemma ComposeTopBitClear(msgType: bv8, id: bv8, data: bv16)
    requires msgType <= 7
    ensures !Bit(Compose(msgType, id, data), 31)
  {
  }

  /** Setting the parity bit of a word whose bit 31 is clear leaves bits
      0..30 alone and makes the number of one-bits even. */
  lemma {:induction false} WithParityBits(tmp: bv32)
    requires !Bit(tmp, 31)
    ensures forall i: bv8 :: i < 31 ==> Bit(WithParity(tmp), i) == Bit(tmp, i)
    ensures Bit(WithParity(tmp), 31) == XorBits(tmp, 31) == XorBits(WithParity(tmp), 31)
    ensures EvenParity(WithParity(tmp))
  {
    var f := WithParity(tmp);
    forall i: bv8 | i < 31 ensures Bit(f, i) == Bit(tmp, i) {
      SetTopBit(tmp, i);
    }
    AgreeBelow(f, tmp, 31);
    PopCountParity(f, 31);
  }

  /** Bits 0..30 of the frame are those of the composed word, bit 31 carries
      their parity, and the frame has an even number of one-bits. */
  lemma EncodeParity(msgType: bv8, id: bv8, data: bv16)
    requires msgType <= 7
    ensures forall i: bv8 :: i < 31 ==> Bit(Encode(msgType, id, data), i) == Bit(Compose(msgType, id, data), i)
    ensures Bit(Encode(msgType, id, data), 31) == XorBits(Compose(msgType, id, data), 31)
    ensures EvenParity(Encode(msgType, id, data))
  {
    ComposeTopBitClear(msgType, id, data);
    WithParityBits(Compose(msgType, id, data));
  }

  /** The spare bits 27..24 of a frame are zero, whatever the type. */
  lemma EncodeSpareZero(msgType: bv8, id: bv8, data: bv16)
    ensures Encode(msgType, id, data) & 0x0F00_0000 == 0
  {
  }

  /** Decoding an encoded frame gives back type, Data-ID and value. */
  lemma DecodeEncode(msgType: bv8, id: bv8, data: bv16)
    requires msgType <= 7
    ensures Decode(Encode(msgType, id, data)) == Message(msgType, id, data)
  {
  }

  lemma SplitTopBit(f: bv32)
    ensures !Bit(f & 0x7FFF_FFFF, 31)
    ensures f == if Bit(f, 31) then (f & 0x7FFF_FFFF) | (1 << 31) else f & 0x7FFF_FFFF
  {
  }

  /** A word with even parity is its low 31 bits with the parity bit set. */
  lemma {:induction false} EvenParityRebuilt(f: bv32)
    requires EvenParity(f)
    ensures WithParity(f & 0x7FFF_FFFF) == f
  {
    var tmp := f & 0x7FFF_FFFF;
    SplitTopBit(f);
    forall i: bv8 | i < 31 ensures Bit(f, i) == Bit(tmp, i) {
      SetTopBit(f, i);
    }
    AgreeBelow(f, tmp, 31);
    ParityTop(f);
  }

  /** Conversely, a frame with even parity and zero spare bits is the
      encoding of what it decodes to. */
  lemma EncodeDecode(f: bv32)
    requires EvenParity(f) && f & 0x0F00_0000 == 0
    ensures Decode(f).msgType <= 7
    ensures Encode(Decode(f).msgType, Decode(f).id, Decode(f).data) == f
  {
    assert Compose(Decode(f).msgType, Decode(f).id, Decode(f).data) == f & 0x7FFF_FFFF;
    EvenParityRebuilt(f);
  }

  /** `OT_to_float`: the Data-Value read as a fixed-point number with eight
      fractional bits (the driver divides the unsigned word by 256). */
  function ToReal(data: bv16): real {
    (data as int) as real / 256.0
  }

  /** Truncation toward zero, as C's `(int)` cast of a float. */
  function Trunc(x: real): int {
    if x >= 0.0 then x.Floor else -((-x).Floor)
  }

  /** `float_to_OT`: the integer part (as `uint16_t`, shifted left by 8 in
      16-bit arithmetic) plus the fraction times 256 truncated to `uint8_t`.
      Out-of-range conversions wrap here. */
  function FromReal(x: real): bv16 {
    FixedWord(x) as bv16
  }

  /** The value of the word `float_to_OT` builds, as an integer. */
  function FixedWord(x: real): (w: int)
    ensures 0 <= w < 65536
  {
    var whole := Trunc(x);
    Join(whole, Trunc((x - whole as real) * 256.0))
  }

  /** `(uint16_t)whole << 8` plus `(uint8_t)frac`, in 16-bit arithmetic. */
  function Join(whole: int, frac: int): (w: int)
    ensures 0 <= w < 65536
  {
    ((whole % 65536) * 256 % 65536 + frac % 256) % 65536
  }

  lemma JoinInRange(whole: int, frac: int)
    requires 0 <= whole < 256 && 0 <= frac < 256
    ensures Join(whole, frac) == whole * 256 + frac
  {
    assert whole % 65536 == whole;
    assert whole * 256 < 65536;
  }

  lemma FixedWordOfQuotient(n: int)
    requires 0 <= n < 65536
    ensures FixedWord(n as real / 256.0) == n
  {
    var x := n as real / 256.0;
    var q, r := n / 256, n % 256;
    assert n == q * 256 + r;
    assert x == q as real + r as real / 256.0;
    assert Trunc(x) == q;
    assert Trunc((x - q as real) * 256.0) == r;
    JoinInRange(q, r);
  }

  /** Every Data-Value survives a conversion to a number and back. */
  lemma FromRealToReal(data: bv16)
    ensures FromReal(ToReal(data)) == data
  {
    var n := data as int;
    FixedWordOfQuotient(n);
    assert FixedWord(ToReal(data)) == n;
    assert n as bv16 == data;
  }

  /** On the non-negative numbers below 256 the conversion truncates to the
      next lower multiple of 1/256. */
  lemma FromRealTruncates(x: real)
    requires 0.0 <= x < 256.0
    ensures var w := FixedWord(x) as real / 256.0; w <= x < w + 1.0 / 256.0
  {
    var whole := x.Floor;
    var y := (x - whole as real) * 256.0;
    var frac := y.Floor;
    assert Trunc(x) == whole && 0 <= whole < 256;
    assert 0.0 <= y < 256.0;
    assert Trunc(y) == frac && 0 <= frac < 256;
    JoinInRange(whole, frac);
    assert FixedWord(x) as real / 256.0 == whole as real + frac as real / 256.0;
  }

}
