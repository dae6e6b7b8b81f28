/**
 The bit operations of parse_string on 32-bit words, proved to do what module Transcode does with integers.
 */
module Words {
  import opened Transcode

  function Bit(b: bv32, mask: bv32): nat {
    if b & mask == 0 then 0 else 1
  }

  /** The number that a word stands for. */
  function Value(b: bv32): nat
    decreases b
  {
    if b == 0 then 0 else 2 * Value(b >> 1) + Bit(b, 1)
  }

  // ----- the low bits of a word
  //
  // One pair of lemmas for each of the ten lowest bits, all of one shape: with the shift and the mask written out the two
  // words are compared bit by bit, which is not possible for a shift by a variable.

  lemma Peel(b: bv32, c: bv32, d: bv32, mask: bv32)
    requires c >> 1 == d && (c & 1 == 0 <==> b & mask == 0)
    ensures Value(c) == 2 * Value(d) + Bit(b, mask)
  {
  }

  lemma Step0(b: bv32)
    ensures Value(b >> 0) == 2 * Value(b >> 1) + Bit(b, 1)
  {
    Shift0(b);
    Peel(b, b >> 0, b >> 1, 1);
  }

  lemma Shift0(b: bv32)
    ensures (b >> 0) >> 1 == b >> 1 && ((b >> 0) & 1 == 0 <==> b & 1 == 0)
  {
  }

  lemma Step1(b: bv32)
    ensures Value(b >> 1) == 2 * Value(b >> 2) + Bit(b, 2)
  {
    Shift1(b);
    Peel(b, b >> 1, b >> 2, 2);
  }

  lemma Shift1(b: bv32)
    ensures (b >> 1) >> 1 == b >> 2 && ((b >> 1) & 1 == 0 <==> b & 2 == 0)
  {
  }

  lemma Step2(b: bv32)
    ensures Value(b >> 2) == 2 * Value(b >> 3) + Bit(b, 4)
  {
    Shift2(b);
    Peel(b, b >> 2, b >> 3, 4);
  }

  lemma Shift2(b: bv32)
    ensures (b >> 2) >> 1 == b >> 3 && ((b >> 2) & 1 == 0 <==> b & 4 == 0)
  {
  }

  lemma Step3(b: bv32)
    ensures Value(b >> 3) == 2 * Value(b >> 4) + Bit(b, 8)
  {
    Shift3(b);
    Peel(b, b >> 3, b >> 4, 8);
  }

  lemma Shift3(b: bv32)
    ensures (b >> 3) >> 1 == b >> 4 && ((b >> 3) & 1 == 0 <==> b & 8 == 0)
  {
  }

  lemma Step4(b: bv32)
    ensures Value(b >> 4) == 2 * Value(b >> 5) + Bit(b, 0x10)
  {
    Shift4(b);
    Peel(b, b >> 4, b >> 5, 0x10);
  }

  lemma Shift4(b: bv32)
    ensures (b >> 4) >> 1 == b >> 5 && ((b >> 4) & 1 == 0 <==> b & 0x10 == 0)
  {
  }

  lemma Step5(b: bv32)
    ensures Value(b >> 5) == 2 * Value(b >> 6) + Bit(b, 0x20)
  {
    Shift5(b);
    Peel(b, b >> 5, b >> 6, 0x20);
  }

  lemma Shift5(b: bv32)
    ensures (b >> 5) >> 1 == b >> 6 && ((b >> 5) & 1 == 0 <==> b & 0x20 == 0)
  {
  }

  lemma Step6(b: bv32)
    ensures Value(b >> 6) == 2 * Value(b >> 7) + Bit(b, 0x40)
  {
    Shift6(b);
    Peel(b, b >> 6, b >> 7, 0x40);
  }

  lemma Shift6(b: bv32)
    ensures (b >> 6) >> 1 == b >> 7 && ((b >> 6) & 1 == 0 <==> b & 0x40 == 0)
  {
  }

  lemma Step7(b: bv32)
    ensures Value(b >> 7) == 2 * Value(b >> 8) + Bit(b, 0x80)
  {
    Shift7(b);
    Peel(b, b >> 7, b >> 8, 0x80);
  }

  lemma Shift7(b: bv32)
    ensures (b >> 7) >> 1 == b >> 8 && ((b >> 7) & 1 == 0 <==> b & 0x80 == 0)
  {
  }

  lemma Step8(b: bv32)
    ensures Value(b >> 8) == 2 * Value(b >> 9) + Bit(b, 0x100)
  {
    Shift8(b);
    Peel(b, b >> 8, b >> 9, 0x100);
  }

  lemma Shift8(b: bv32)
    ensures (b >> 8) >> 1 == b >> 9 && ((b >> 8) & 1 == 0 <==> b & 0x100 == 0)
  {
  }

  lemma Step9(b: bv32)
    ensures Value(b >> 9) == 2 * Value(b >> 10) + Bit(b, 0x200)
  {
    Shift9(b);
    Peel(b, b >> 9, b >> 10, 0x200);
  }

  lemma Shift9(b: bv32)
    ensures (b >> 9) >> 1 == b >> 10 && ((b >> 9) & 1 == 0 <==> b & 0x200 == 0)
  {
  }

  lemma ThreeBits(b: bv32)
    ensures Value(b >> 0) == 8 * Value(b >> 3) + Bit(b, 1) + 2 * Bit(b, 2) + 4 * Bit(b, 4)
  {
    hide Value, Bit;
    Step0(b);
    Step1(b);
    Step2(b);
  }

  lemma SixBits(b: bv32)
    ensures Value(b >> 3) == 8 * Value(b >> 6) + Bit(b, 8) + 2 * Bit(b, 0x10) + 4 * Bit(b, 0x20)
  {
    hide Value, Bit;
    Step3(b);
    Step4(b);
    Step5(b);
  }

  lemma TenBits(b: bv32)
    ensures Value(b >> 6) == 16 * Value(b >> 10) + High4(b)
  {
    hide Value, Bit;
    Step6(b);
    Step7(b);
    Step8(b);
    Step9(b);
  }

  lemma NoShift(b: bv32)
    ensures b >> 0 == b
  {
  }

  /** The six lowest bits, the five and the four lowest of them, and the four bits above. */
  function Low6(b: bv32): nat {
    Low5(b) + 32 * Bit(b, 0x20)
  }

  function Low5(b: bv32): nat {
    Low4(b) + 16 * Bit(b, 0x10)
  }

  function Low4(b: bv32): nat {
    Bit(b, 1) + 2 * Bit(b, 2) + 4 * Bit(b, 4) + 8 * Bit(b, 8)
  }

  function High4(b: bv32): nat {
    Bit(b, 0x40) + 2 * Bit(b, 0x80) + 4 * Bit(b, 0x100) + 8 * Bit(b, 0x200)
  }

  lemma Split6(b: bv32)
    ensures Value(b) == 64 * Value(b >> 6) + Low6(b) && Low6(b) < 64
  {
    hide Value;
    NoShift(b);
    ThreeBits(b);
    SixBits(b);
  }

  lemma Split10(b: bv32)
    ensures Value(b) == 1024 * Value(b >> 10) + 64 * High4(b) + Low6(b) && High4(b) < 16 && Low6(b) < 64
  {
    hide Value, Low6;
    Split6(b);
    TenBits(b);
  }

  /** Shifting by six divides. */
  lemma ShiftWord(b: bv32)
    ensures Value(b >> 6) == Value(b) / 0x40
  {
    hide Value, Low6;
    Split6(b);
  }

  lemma SameLow(b: bv32, c: bv32)
    ensures c & 0xF == b & 0xF ==> Low4(c) == Low4(b)
    ensures c & 0x1F == b & 0x1F ==> Low5(c) == Low5(b)
    ensures c & 0x3F == b & 0x3F ==> Low6(c) == Low6(b)
  {
    Masks(b);
    Masks(c);
  }

  lemma Masks(b: bv32)
    ensures b & 1 == (b & 0xF) & 1 && b & 2 == (b & 0xF) & 2 && b & 4 == (b & 0xF) & 4 && b & 8 == (b & 0xF) & 8
    ensures b & 0xF == (b & 0x1F) & 0xF && b & 0x10 == (b & 0x1F) & 0x10
    ensures b & 0x1F == (b & 0x3F) & 0x1F && b & 0x20 == (b & 0x3F) & 0x20
  {
  }

  lemma SmallValues()
    ensures Value(0) == 0 && Value(1) == 1 && Value(2) == 2 && Value(3) == 3
  {
    assert (1 as bv32) >> 1 == 0 && (2 as bv32) >> 1 == 1 && (3 as bv32) >> 1 == 1;
  }

  // ----- the bytes of the UTF-8 form

  /** `( uc | 0x80 ) & 0xBF`, as it is stored in a byte. */
  function ContinuationByte(b: bv32): bv32 {
    ((b | 0x80) & 0xBF) & 0xFF
  }

  /** `uc | firstByteMark[len]`, as it is stored in a byte. */
  function LeadByte(len: nat, b: bv32): bv32 {
    (b | (if len == 1 then 0 else if len == 2 then 0xC0 else if len == 3 then 0xE0 else 0xF0)) & 0xFF
  }

  lemma ContinuationBits(b: bv32)
    ensures var c := ContinuationByte(b); c >> 6 == 2 && c & 0x3F == b & 0x3F
  {
  }

  lemma ContinuationWord(b: bv32)
    ensures Value(ContinuationByte(b)) == Continuation(Value(b)) as int
  {
    hide Value, Low6, ContinuationByte;
    var c := ContinuationByte(b);
    ContinuationBits(b);
    SameLow(b, c);
    Split6(b);
    Split6(c);
    SmallValues();
  }

  lemma LeadBits2(b: bv32)
    ensures var c := LeadByte(2, b); c >> 6 == 3 && c & 0x3F == b & 0x3F
  {
  }

  lemma LeadWord2(b: bv32)
    ensures Value(LeadByte(2, b)) == 0xC0 + Value(b) % 0x40
  {
    hide Value, LeadByte, Low6;
    var c := LeadByte(2, b);
    LeadBits2(b);
    SameLow(b, c);
    Split6(b);
    Split6(c);
    SmallValues();
  }

  lemma LeadBits3(b: bv32)
    ensures var c := LeadByte(3, b); c >> 6 == 3 && c & 0x1F == b & 0x1F && c & 0x20 != 0
  {
  }

  lemma LeadWord3(b: bv32)
    ensures Value(LeadByte(3, b)) == 0xE0 + Value(b) % 0x20
  {
    hide Value, LeadByte, Low5;
    var c := LeadByte(3, b);
    LeadBits3(b);
    SameLow(b, c);
    Split6(b);
    Split6(c);
    SmallValues();
    LowSmall(b);
    FiveBits(Value(b), Value(b >> 6), Bit(b, 0x20), Low5(b));
  }

  lemma FiveBits(v: nat, q: nat, bit: nat, l: nat)
    requires v == 64 * q + l + 32 * bit && l < 32
    ensures v % 0x20 == l
  {
  }

  lemma LeadBits4(b: bv32)
    ensures var c := LeadByte(4, b); c >> 6 == 3 && c & 0xF == b & 0xF && c & 0x10 != 0 && c & 0x20 != 0
  {
  }

  lemma LeadWord4(b: bv32)
    ensures Value(LeadByte(4, b)) == 0xF0 + Value(b) % 0x10
  {
    hide Value, LeadByte, Low4;
    var c := LeadByte(4, b);
    LeadBits4(b);
    SameLow(b, c);
    Split6(b);
    Split6(c);
    SmallValues();
    LowSmall(b);
    FourBits(Value(b), Value(b >> 6), Bit(b, 0x20), Bit(b, 0x10), Low4(b));
  }

  lemma FourBits(v: nat, q: nat, bit: nat, bit2: nat, l: nat)
    requires v == 64 * q + l + 16 * bit2 + 32 * bit && l < 16
    ensures v % 0x10 == l
  {
  }

  lemma LowSmall(b: bv32)
    ensures Low4(b) < 16 && Low5(b) < 32
  {
  }

  lemma LeadBits1(b: bv32)
    requires b < 0x80
    ensures LeadByte(1, b) == b
  {
  }

  lemma LeadWord(len: nat, b: bv32)
    requires 2 <= len <= 4 && Value(b) < 0x80
    ensures Value(LeadByte(len, b)) == Lead(len, Value(b)) as int
  {
    hide Value, LeadByte;
    LeadWord2(b);
    LeadWord3(b);
    LeadWord4(b);
  }

  lemma Positive(b: bv32)
    ensures b != 0 ==> Value(b) > 0
    decreases b
  {
    LastBit(b);
    if b >> 1 != 0 {
      Positive(b >> 1);
    }
  }

  lemma LastBit(b: bv32)
    ensures b >> 1 != 0 ==> b != 0 && b >> 1 < b
    ensures b != 0 && b >> 1 == 0 ==> b & 1 != 0
  {
  }

  lemma Half(b: bv32)
    ensures b >> 1 != 0 ==> Value(b) >= 2
  {
    LastBit(b);
    Positive(b >> 1);
  }

  /** A word whose value is small is small. */
  lemma SmallWord(b: bv32)
    ensures Value(b) < 0x80 ==> b < 0x80
  {
    hide Value;
    ShiftWord(b);
    Half(b >> 6);
    ShiftedOut(b);
  }

  lemma ShiftedOut(b: bv32)
    ensures (b >> 6) >> 1 == 0 ==> b < 0x80
  {
  }

  /** `uc >>= 6` */
  function Rest(b: bv32): bv32 {
    b >> 6
  }

  lemma RestWord(b: bv32)
    ensures Value(Rest(b)) == Value(b) / 0x40
  {
    ShiftWord(b);
  }

  /** The bytes that the switch of parse_string stores for a word: the last is stored first, and the word shifted on. */
  function StoredBytes(b: bv32, len: nat): seq<bv32>
    requires 1 <= len <= 4
  {
    if len == 1 then [LeadByte(1, b)]
    else if len == 2 then [LeadByte(2, Rest(b)), ContinuationByte(b)]
    else if len == 3 then [LeadByte(3, Rest(Rest(b))), ContinuationByte(Rest(b)), ContinuationByte(b)]
    else [LeadByte(4, Rest(Rest(Rest(b)))), ContinuationByte(Rest(Rest(b))), ContinuationByte(Rest(b)), ContinuationByte(b)]
  }

  /** Each word holds the byte of the same place. */
  predicate Holds(bytes: seq<bv32>, s: string) {
    |bytes| == |s| && forall i :: 0 <= i < |s| ==> Value(bytes[i]) == s[i] as int
  }

  lemma OneByte(b: bv32, n: nat)
    requires n == Value(b) && n < 0x80
    ensures Holds([LeadByte(1, b)], Utf8(n))
  {
    hide Value, LeadByte;
    SmallWord(b);
    LeadBits1(b);
  }

  lemma TwoBytes(b: bv32, n: nat)
    requires n == Value(b) && Utf8Length(n) == 2
    ensures Holds([LeadByte(2, Rest(b)), ContinuationByte(b)], Utf8(n))
  {
    hide Value, ContinuationByte, LeadByte, Rest;
    RestWord(b);
    LeadWord(2, Rest(b));
    ContinuationWord(b);
  }

  lemma ThreeBytes(b: bv32, b1: bv32, n: nat)
    requires n == Value(b) && b1 == Rest(b) && Utf8Length(n) == 3
    ensures Holds([LeadByte(3, Rest(b1)), ContinuationByte(b1), ContinuationByte(b)], Utf8(n))
  {
    hide Value, ContinuationByte, LeadByte, Rest;
    RestWord(b);
    RestWord(b1);
    LeadWord(3, Rest(b1));
    ContinuationWord(b1);
    ContinuationWord(b);
  }

  lemma FourBytes(b: bv32, b1: bv32, b2: bv32, n: nat)
    requires n == Value(b) && b1 == Rest(b) && b2 == Rest(b1) && Utf8Length(n) == 4 && n < 0x110000
    ensures Holds([LeadByte(4, Rest(b2)), ContinuationByte(b2), ContinuationByte(b1), ContinuationByte(b)], Utf8(n))
  {
    hide Value, ContinuationByte, LeadByte, Rest;
    RestWord(b);
    RestWord(b1);
    RestWord(b2);
    LeadWord(4, Rest(b2));
    ContinuationWord(b2);
    ContinuationWord(b1);
    ContinuationWord(b);
  }

  /** Those bytes are the ones of the integer form. */
  lemma Utf8Words(b: bv32)
    requires Value(b) < 0x110000
    ensures Holds(StoredBytes(b, Utf8Length(Value(b))), Utf8(Value(b)))
  {
    hide Value, Utf8, Holds, ContinuationByte, LeadByte, Rest;
    var n := Value(b);
    var len := Utf8Length(n);
    if len == 1 {
      OneByte(b, n);
    } else if len == 2 {
      TwoBytes(b, n);
    } else if len == 3 {
      ThreeBytes(b, Rest(b), n);
    } else {
      FourBytes(b, Rest(b), Rest(Rest(b)), n);
    }
  }

  // ----- surrogate pairs

  /** `0x10000 | ( ( uc & 0x3FF ) << 10 ) | ( uc2 & 0x3FF )` */
  function CombinedWord(uc: bv32, uc2: bv32): bv32 {
    0x10000 | ((uc & 0x3FF) << 10) | (uc2 & 0x3FF)
  }

  lemma CombinedBits(a: bv32, b: bv32)
    ensures var r := CombinedWord(a, b); r >> 10 == (a & 0x3FF) | 0x40 && r & 0x3FF == b & 0x3FF
  {
  }

  lemma SameTen(b: bv32, c: bv32)
    requires c & 0x3FF == b & 0x3FF
    ensures Low6(c) == Low6(b) && High4(c) == High4(b)
  {
    TenMasks(b);
    TenMasks(c);
    SameLow(b, c);
  }

  lemma TenMasks(b: bv32)
    ensures b & 0x3F == (b & 0x3FF) & 0x3F && b & 0x40 == (b & 0x3FF) & 0x40 && b & 0x80 == (b & 0x3FF) & 0x80
    ensures b & 0x100 == (b & 0x3FF) & 0x100 && b & 0x200 == (b & 0x3FF) & 0x200
  {
  }

  lemma MarkedBits(a: bv32)
    ensures var q := (a & 0x3FF) | 0x40;
      && q >> 10 == 0 && q & 0x3F == a & 0x3F && q & 0x40 != 0
      && q & 0x80 == a & 0x80 && q & 0x100 == a & 0x100 && q & 0x200 == a & 0x200
  {
  }

  /** The upper half of the pair, with the bit that the OR sets. */
  lemma Marked(a: bv32)
    ensures Value((a & 0x3FF) | 0x40) == Low6(a) + 64 * (High4(a) - Bit(a, 0x40) + 1)
  {
    var q := (a & 0x3FF) | 0x40;
    MarkedBits(a);
    MarkedValue(a, q);
  }

  lemma MarkedValue(a: bv32, q: bv32)
    requires q >> 10 == 0 && q & 0x3F == a & 0x3F && q & 0x40 != 0
    requires q & 0x80 == a & 0x80 && q & 0x100 == a & 0x100 && q & 0x200 == a & 0x200
    ensures Value(q) == Low6(a) + 64 * (High4(a) - Bit(a, 0x40) + 1)
  {
    hide Value, Low6;
    SameLow(a, q);
    Split10(q);
    SmallValues();
  }

  /** The OR of the code is what CombineSurrogates computes. */
  lemma SurrogateWord(a: bv32, b: bv32)
    ensures Value(CombinedWord(a, b)) == CombineSurrogates(Value(a), Value(b))
  {
    hide Value, Low6, High4, CombinedWord, Bit;
    CombinedValue(a, b);
    Split10(a);
    Split10(b);
    Halves(Value(a), Value(a >> 10), High4(a), Low6(a));
    Halves(Value(b), Value(b >> 10), High4(b), Low6(b));
    Plane(High4(a), Low6(a), High4(b), Low6(b));
    TopBit(a);
  }

  lemma CombinedValue(a: bv32, b: bv32)
    ensures Value(CombinedWord(a, b))
         == 1024 * (Low6(a) + 64 * (High4(a) - Bit(a, 0x40) + 1)) + 64 * High4(b) + Low6(b)
  {
    hide Value, Low6, High4, CombinedWord, Bit;
    CombinedBits(a, b);
    SameTen(b, CombinedWord(a, b));
    Marked(a);
    Split10(CombinedWord(a, b));
  }

  lemma Halves(v: nat, q: nat, h: nat, l: nat)
    requires v == 1024 * q + 64 * h + l && h < 16 && l < 64
    ensures v % 0x400 == 64 * h + l
  {
  }

  lemma TopBit(a: bv32)
    ensures High4(a) % 2 == Bit(a, 0x40)
  {
  }

  lemma Plane(h: nat, l: nat, h2: nat, l2: nat)
    requires h < 16 && l < 64 && h2 < 16 && l2 < 64
    ensures var v := (64 * h + l) * 0x400 + 64 * h2 + l2; v / 0x10000 % 2 == h % 2
  {
    var v := (64 * h + l) * 0x400 + 64 * h2 + l2;
    assert v == h * 0x10000 + (l * 0x400 + 64 * h2 + l2);
  }
}
