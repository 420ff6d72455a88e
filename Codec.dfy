/** Pure part of the TMC2130 register layer: 32-bit register words and their
    big-endian serialisation, the mask merge that keeps a write-only register's
    shadow, the address-byte write test, the C integer conversions the setters
    rely on, and the per-field encodings (clamp, signed bias, two's complement
    field, quantisation to a table of legal values). */
module Codec {

  /** A register word (uint32_t). */
  type Word = bv32
  /** One byte on the serial link (uint8_t). */
  type Byte = bv8

  /** The two's complement bits of a C int8_t and of a C int16_t; Signed8 and
      Signed16 give the values they stand for. */
  type Int8 = bv8
  type Int16 = bv16

  // ---------------------------------------------------------------------------
  // C integer types and conversions

  /** The value a C int8_t holds, from its two's complement bits. */
  function Signed8(b: Int8): int
  {
    if b < 0x80 then b as int else b as int - 0x100
  }

  /** The value a C int16_t holds, from its two's complement bits. */
  function Signed16(h: Int16): int
  {
    if h < 0x8000 then h as int else h as int - 0x1_0000
  }

  /** C's `<` on two int8_t operands, on their bits: flipping the sign bit
      turns the signed order into the unsigned one. */
  predicate Less8(a: Int8, b: Int8)
  {
    (a ^ 0x80) < (b ^ 0x80)
  }

  /** C's `<` on two int16_t operands, on their bits. */
  predicate Less16(a: Int16, b: Int16)
  {
    (a ^ 0x8000) < (b ^ 0x8000)
  }

  /** Less8 is the order of the values the bits stand for. */
  lemma Less8IsSigned(a: Int8, b: Int8)
    ensures Less8(a, b) <==> Signed8(a) < Signed8(b)
  {
  }

  /** The conversion of an int8_t to uint32_t: the low byte is kept and the
      sign is copied into the upper 24 bits. */
  function SExt8(b: Int8): (w: Word)
    ensures w & 0xFF == b as Word
    ensures w >> 8 == if Signed8(b) < 0 then 0xFF_FFFF else 0
  {
    if b < 0x80 then b as Word else b as Word | 0xFFFF_FF00
  }

  /** The conversion of an int16_t to uint32_t: sign extension. */
  function SExt16(h: Int16): (w: Word)
    ensures w & 0xFFFF == h as Word
    ensures w >> 16 == if Signed16(h) < 0 then 0xFFFF else 0
  {
    if h < 0x8000 then h as Word else h as Word | 0xFFFF_0000
  }

  /** The conversion of a uint32_t to uint8_t: the low eight bits. */
  function Low8(w: Word): (b: Byte)
    ensures b as Word == w & 0xFF
  {
    (w & 0xFF) as Byte
  }

  /** The conversion of a uint16_t to uint8_t: the low eight bits. */
  function Low8Of16(h: bv16): (b: Byte)
    ensures b as bv16 == h & 0xFF
  {
    (h & 0xFF) as Byte
  }

  // ---------------------------------------------------------------------------
  // Clamps

  /** `if (value > hi) value = hi;` on a uint8_t. */
  function ClampMax8(value: Byte, hi: Byte): (r: Byte)
    ensures r <= hi
    ensures value <= hi ==> r == value
    ensures hi < value ==> r == hi
  {
    if value > hi then hi else value
  }

  /** `if (value > hi) value = hi;` on a uint32_t. */
  function ClampMax32(value: Word, hi: Word): (r: Word)
    ensures r <= hi
    ensures value <= hi ==> r == value
    ensures hi < value ==> r == hi
  {
    if value > hi then hi else value
  }

  /** `if (value < lo) value = lo; else if (value > hi) value = hi;` on a uint8_t. */
  function ClampRange8(value: Byte, lo: Byte, hi: Byte): (r: Byte)
    requires lo <= hi
    ensures lo <= r <= hi
    ensures lo <= value <= hi ==> r == value
    ensures value < lo ==> r == lo
    ensures hi < value ==> r == hi
  {
    if value < lo then lo else if value > hi then hi else value
  }

  /** The two clamps of an int8_t, with C's signed comparisons; the result is
      the value itself when it lies in [lo, hi] and the nearer bound otherwise. */
  function ClampSigned8(value: Int8, lo: Int8, hi: Int8): (r: Int8)
    requires Signed8(lo) <= Signed8(hi)
    ensures Signed8(lo) <= Signed8(r) <= Signed8(hi)
    ensures Signed8(lo) <= Signed8(value) <= Signed8(hi) ==> r == value
    ensures Signed8(value) < Signed8(lo) ==> r == lo
    ensures Signed8(hi) < Signed8(value) ==> r == hi
  {
    Less8IsSigned(value, lo);
    Less8IsSigned(hi, value);
    if Less8(value, lo) then lo else if Less8(hi, value) then hi else value
  }

  /** set_XDIRECT_A/B's clamp of an int16_t coil current to [-255, 255]. */
  function ClampXdirect(value: Int16): (r: Int16)
    ensures -255 <= Signed16(r) <= 255
    ensures -255 <= Signed16(value) <= 255 ==> r == value
    ensures Signed16(value) < -255 ==> Signed16(r) == -255
    ensures 255 < Signed16(value) ==> Signed16(r) == 255
  {
    if Less16(value, 0xFF01) then 0xFF01
    else if Less16(0x00FF, value) then 0x00FF
    else value
  }

  // ---------------------------------------------------------------------------
  // Shadow merge

  /** The word send2130 leaves in a shadow after a write: the bits selected by
      `mask` come from `value`, all other bits from the old `config`. */
  function Merge(config: Word, value: Word, mask: Word): (r: Word)
    ensures r & mask == value & mask
    ensures r & !mask == config & !mask
  {
    (config & !mask) | (value & mask)
  }

  /** A whole-register write (mask 0xFFFFFFFF) replaces the shadow by the
      value, and a write with mask 0 leaves it as it was. */
  lemma MergeFullAndEmptyMask(config: Word, value: Word)
    ensures Merge(config, value, 0xFFFF_FFFF) == value
    ensures Merge(config, value, 0) == config
  {
  }

  /** Shadow coherency: a field written earlier survives a later write to a
      disjoint field of the same register. */
  lemma DisjointWriteKeepsField(config: Word, bits1: Word, mask1: Word, bits2: Word, mask2: Word)
    requires mask1 & mask2 == 0
    ensures Merge(Merge(config, bits1, mask1), bits2, mask2) & mask1 == bits1 & mask1
  {
  }

  // ---------------------------------------------------------------------------
  // The datagram

  /** send2130's write test, `addressByte << 7` on the byte promoted to int. */
  predicate WriteTest(addressByte: Byte)
  {
    (addressByte as bv32) << 7 != 0
  }

  /** The test holds for every nonzero address byte, not only for those with
      the write flag (bit 7) set: of the read datagrams only the one addressed
      to register 0 with a zero header takes the read branch. */
  lemma WriteTestIsNonzero(addressByte: Byte)
    ensures WriteTest(addressByte) <==> addressByte != 0
  {
  }

  /** The four data bytes of a word, most significant first. */
  function BytesBE(w: Word): (b: seq<Byte>)
    ensures |b| == 4
    ensures WordBE(b[0], b[1], b[2], b[3]) == w
  {
    [Low8(w >> 24), Low8(w >> 16), Low8(w >> 8), Low8(w)]
  }

  /** The word assembled from four received bytes, most significant first. */
  function WordBE(b0: Byte, b1: Byte, b2: Byte, b3: Byte): (w: Word)
    ensures w >> 24 == b0 as Word
    ensures (w >> 16) & 0xFF == b1 as Word
    ensures (w >> 8) & 0xFF == b2 as Word
    ensures w & 0xFF == b3 as Word
  {
    (b0 as Word << 24) | (b1 as Word << 16) | (b2 as Word << 8) | b3 as Word
  }

  /** Serialising an assembled word gives the received bytes back. */
  lemma BytesOfWordBE(b0: Byte, b1: Byte, b2: Byte, b3: Byte)
    ensures BytesBE(WordBE(b0, b1, b2, b3)) == [b0, b1, b2, b3]
  {
  }

  /** A write datagram: the address byte followed by the word's four bytes. */
  function Datagram(addressByte: Byte, w: Word): (d: seq<Byte>)
    ensures |d| == 5 && d[0] == addressByte
    ensures WordBE(d[1], d[2], d[3], d[4]) == w
  {
    [addressByte] + BytesBE(w)
  }

  /** The five bytes of a write datagram, one by one. */
  lemma DatagramBytes(addressByte: Byte, w: Word)
    ensures Datagram(addressByte, w) == [addressByte, Low8(w >> 24), Low8(w >> 16), Low8(w >> 8), Low8(w)]
  {
  }

  /** send2130's read branch: the word after each shift-and-or step, and the
      byte of it sent next. The bytes sent after the first are 0, the second
      byte received, and 0; the final word is the four received bytes, most
      significant first. */
  lemma ReadAssembly(r1: Byte, r2: Byte, r3: Byte, r4: Byte)
    ensures Low8((r1 as Word << 8) >> 16) == 0
    ensures Low8((((r1 as Word << 8) | r2 as Word) << 8) >> 8) == r2
    ensures Low8(((((r1 as Word << 8) | r2 as Word) << 8) | r3 as Word) << 8) == 0
    ensures (((((r1 as Word << 8) | r2 as Word) << 8) | r3 as Word) << 8) | r4 as Word == WordBE(r1, r2, r3, r4)
  {
  }

  // ---------------------------------------------------------------------------
  // Quantisation to a descending table of legal values

  /** The legal tables are sorted strictly downwards. */
  ghost predicate Descending(valid: seq<bv16>)
  {
    forall i, j :: 0 <= i < j < |valid| ==> valid[j] < valid[i]
  }

  /** valid[k] is the largest table member at most `bound`. */
  ghost predicate LargestAtMost(valid: seq<bv16>, bound: bv16, k: int)
  {
    0 <= k < |valid| && valid[k] <= bound &&
    forall j :: 0 <= j < |valid| && valid[j] <= bound ==> valid[j] <= valid[k]
  }

  /** In a descending table the largest member at most a bound sits at one index. */
  lemma LargestAtMostUnique(valid: seq<bv16>, bound: bv16, k1: int, k2: int)
    requires Descending(valid)
    requires LargestAtMost(valid, bound, k1) && LargestAtMost(valid, bound, k2)
    ensures k1 == k2
  {
    if k1 != k2 {
      assert false;
    }
  }

  /** The uint8_t input after `if (value < valid[last]) value = valid[last];`;
      the assignment truncates a table member wider than eight bits. */
  function Floor(valid: seq<bv16>, value: Byte): (f: Byte)
    requires |valid| > 0
    ensures valid[|valid| - 1] <= value as bv16 ==> f == value
  {
    if value as bv16 < valid[|valid| - 1] then Low8Of16(valid[|valid| - 1]) else value
  }

  /** In a descending table, a member at most v at or after the first index i
      whose predecessors all exceed v is at most valid[i]. */
  lemma FirstAtMostIsLargest(valid: seq<bv16>, v: bv16, i: int, j: int)
    requires Descending(valid)
    requires 0 <= i < |valid| && 0 <= j < |valid| && valid[j] <= v
    requires forall k :: 0 <= k < i ==> v < valid[k]
    ensures valid[j] <= valid[i]
  {
    if j < i {
      assert false;
    }
  }

  /** What the quantising loop leaves in a uint8_t input: the input is first
      raised to the smallest member (Floor); then, when some member is at most
      the raised value, the largest such member truncated to a uint8_t, and
      otherwise the raised value itself. */
  ghost predicate Quantized(valid: seq<bv16>, value: Byte, r: Byte)
    requires |valid| > 0
  {
    var floor := Floor(valid, value);
    if exists j :: 0 <= j < |valid| && valid[j] <= floor as bv16
    then exists k :: LargestAtMost(valid, floor as bv16, k) && r == Low8Of16(valid[k])
    else r == floor
  }

  /** r is, as a number, the largest member of `valid` at most `bound`. */
  ghost predicate LargestMember(valid: seq<bv16>, bound: bv16, r: Byte)
  {
    exists k :: LargestAtMost(valid, bound, k) && r as bv16 == valid[k]
  }

  /** The quantising loop of set_TBL, set_SEUP, set_SEDN and set_PWM_FREQ: raise
      a uint8_t input below the smallest member up to it, then take the first
      member at most the value, which on a descending table is the largest. */
  method Quantize(valid: seq<bv16>, value: Byte) returns (r: Byte)
    requires |valid| > 0 && Descending(valid)
    ensures Quantized(valid, value, r)
  {
    r := value;
    if r as bv16 < valid[|valid| - 1] {
      r := Low8Of16(valid[|valid| - 1]);
    }
    ghost var floor := r;
    var i := 0;
    while i < |valid|
      invariant i <= |valid|
      invariant r == floor
      invariant forall j :: 0 <= j < i ==> floor as bv16 < valid[j]
    {
      if r as bv16 >= valid[i] {
        r := Low8Of16(valid[i]);
        forall j | 0 <= j < |valid| && valid[j] <= floor as bv16
          ensures valid[j] <= valid[i]
        {
          FirstAtMostIsLargest(valid, floor as bv16, i, j);
        }
        assert LargestAtMost(valid, floor as bv16, i);
        return;
      }
      i := i + 1;
    }
  }

  /** On a descending table whose members all fit a uint8_t, the smallest
      member is at most the raised input, so the quantised value is a member,
      the largest at most the raised input, and nothing is lost to the uint8_t. */
  lemma QuantizedMember(valid: seq<bv16>, value: Byte, r: Byte)
    requires |valid| > 0
    requires forall j :: 0 <= j < |valid| ==> valid[j] < 0x100
    requires Quantized(valid, value, r)
    ensures LargestMember(valid, Floor(valid, value) as bv16, r)
    ensures r as bv16 in valid
  {
    assert valid[|valid| - 1] <= Floor(valid, value) as bv16;
    var k :| LargestAtMost(valid, Floor(valid, value) as bv16, k) && r == Low8Of16(valid[k]);
    assert r as bv16 == valid[k];
  }

  /** set_TBL's table of blank times. */
  const TblValid: seq<bv16> := [54, 36, 24, 16]
  /** set_SEUP's table of current increment steps. */
  const SeupValid: seq<bv16> := [8, 4, 2, 1]
  /** set_SEDN's table of current decrement step counts. */
  const SednValid: seq<bv16> := [32, 8, 2, 1]
  /** set_PWM_FREQ's table of PWM frequency dividers (a uint16_t array). */
  const PwmFreqValid: seq<bv16> := [1024, 683, 512, 410]
  /** set_MRES's table of microstep resolutions (an int array) and the code
      written for each. */
  const MresValid: seq<bv16> := [256, 128, 64, 32, 16, 8, 4, 2, 0]
  const MresCode: seq<Word> := [0x0, 0x1, 0x2, 0x3, 0x4, 0x5, 0x6, 0x7, 0x8]

  /** Each table is descending, so the quantising loop picks the largest member. */
  lemma TblDescending()
    ensures Descending(TblValid)
  {
  }

  lemma SeupDescending()
    ensures Descending(SeupValid)
  {
  }

  lemma SednDescending()
    ensures Descending(SednValid)
  {
  }

  lemma PwmFreqDescending()
    ensures Descending(PwmFreqValid)
  {
  }

  lemma MresDescending()
    ensures Descending(MresValid)
  {
  }

  /** set_TBL caches the largest legal blank time at most the input raised to
      16. */
  lemma TblSetting(value: Byte, q: Byte)
    requires Quantized(TblValid, value, q)
    ensures LargestMember(TblValid, Floor(TblValid, value) as bv16, q)
  {
    QuantizedMember(TblValid, value, q);
  }

  /** set_TBL packs the time itself, not its index, into the 2-bit field at
      bits 15-16: of the four legal values only 54 leaves a nonzero code. */
  lemma TblPacking(q: Byte)
    requires q as bv16 in TblValid
    ensures ((q as Word) << 15) & 0x18000 == if q == 54 then 0x10000 else 0
  {
  }

  /** set_SEUP caches the largest legal step at most the input raised to 1. */
  lemma SeupSetting(value: Byte, q: Byte)
    requires Quantized(SeupValid, value, q)
    ensures LargestMember(SeupValid, Floor(SeupValid, value) as bv16, q)
  {
    QuantizedMember(SeupValid, value, q);
  }

  /** set_SEUP packs the step itself into bits 5-6: 1 and 2 keep their
      value, 4 and 8 leave code 0. */
  lemma SeupPacking(q: Byte)
    requires q as bv16 in SeupValid
    ensures ((q as Word) << 5) & 0x60 == if q <= 2 then (q as Word) << 5 else 0
  {
  }

  /** set_SEDN caches the largest legal count at most the input raised to 1. */
  lemma SednSetting(value: Byte, q: Byte)
    requires Quantized(SednValid, value, q)
    ensures LargestMember(SednValid, Floor(SednValid, value) as bv16, q)
  {
    QuantizedMember(SednValid, value, q);
  }

  /** set_SEDN packs the count itself into bits 13-14: 1 and 2 keep their
      value, 8 and 32 leave code 0. */
  lemma SednPacking(q: Byte)
    requires q as bv16 in SednValid
    ensures ((q as Word) << 13) & 0x6000 == if q <= 2 then (q as Word) << 13 else 0
  {
  }

  /** set_PWM_FREQ: every uint8_t input is below 410, which the uint8_t
      assignment truncates to 154; no divider is at most 154, so the loop
      leaves 154, and its bits 16-17 give code 0b10 whatever the input. */
  lemma PwmFreqSetting(value: Byte, q: Byte)
    requires Quantized(PwmFreqValid, value, q)
    ensures q == 154
    ensures ((q as Word) << 16) & 0x30000 == 0x20000
  {
    assert Floor(PwmFreqValid, value) == 154;
    assert forall j :: 0 <= j < |PwmFreqValid| ==> 154 < PwmFreqValid[j];
  }

  /** set_MRES's outcome for input `value`: the cache m holds the member at
      index k, the largest at most the input, and k is not 0 since 256
      exceeds every uint8_t. */
  ghost predicate MresSetting(value: Byte, m: Byte, k: int)
  {
    1 <= k && LargestAtMost(MresValid, value as bv16, k) && m as bv16 == MresValid[k]
  }

  /** set_MRES's codes are the indices of the table members. */
  lemma MresCodeIsIndex(i: int)
    requires 0 <= i < |MresCode|
    ensures MresCode[i] == i as Word
  {
  }

  /** Every member of set_MRES's table after the first fits a uint8_t. */
  lemma MresMemberFits(i: int)
    requires 1 <= i < |MresValid|
    ensures Low8Of16(MresValid[i]) as bv16 == MresValid[i]
  {
  }

  /** set_MRES's loop stops at the first index i whose member is at most the
      input: that is the setting above, the member fits the uint8_t cache,
      and the code written is the index itself. */
  lemma MresMatch(value: Byte, i: int)
    requires 0 <= i < |MresValid| && MresValid[i] <= value as bv16
    requires forall j :: 0 <= j < i ==> value as bv16 < MresValid[j]
    ensures MresSetting(value, Low8Of16(MresValid[i]), i)
    ensures MresCode[i] == i as Word
  {
    MresLargest(value, i);
    MresMemberFits(i);
    MresCodeIsIndex(i);
  }

  /** The first member at most the input is the largest such, and is not the
      first member, 256, which exceeds every uint8_t. */
  lemma MresLargest(value: Byte, i: int)
    requires 0 <= i < |MresValid| && MresValid[i] <= value as bv16
    requires forall j :: 0 <= j < i ==> value as bv16 < MresValid[j]
    ensures 1 <= i && LargestAtMost(MresValid, value as bv16, i)
  {
    MresDescending();
    forall j | 0 <= j < |MresValid| && MresValid[j] <= value as bv16
      ensures MresValid[j] <= MresValid[i]
    {
      FirstAtMostIsLargest(MresValid, value as bv16, i, j);
    }
  }

  /** Inputs 16 to 31 all select the resolution 16, at index 4 of the table. */
  lemma MresSixteen(value: Byte, m: Byte, k: int)
    requires 16 <= value <= 31 && MresSetting(value, m, k)
    ensures m == 16 && k == 4
  {
    MresDescending();
    assert LargestAtMost(MresValid, value as bv16, 4);
    LargestAtMostUnique(MresValid, value as bv16, k, 4);
  }

  // ---------------------------------------------------------------------------
  // Field encodings

  /** set_IHOLD_DELAY shifts by 16 but masks 0xF000: the bits it hands over are
      always cleared by the mask, so the merge zeroes bits 12-15 and leaves the
      delay's own bits 16-19 as they were. */
  lemma IholdDelayClearsOnly(config: Word, value: Byte)
    ensures ((value as Word) << 16) & 0xF000 == 0
    ensures Merge(config, (value as Word) << 16, 0xF000) == config & !0xF000
  {
  }

  /** set_HSTRT's bits: a value already clamped to 1..8, stored minus one in bits 4-6. */
  function HstrtBits(value: Byte): (b: Word)
    requires 1 <= value <= 8
    ensures b & !0x70 == 0
    ensures (b >> 4) + 1 == value as Word
  {
    ((value as Word) - 1) << 4
  }

  /** The hysteresis start a CHOPCONF word holds in bits 4-6, plus one. */
  function HstrtOf(w: Word): Byte
  {
    Low8((w >> 4) & 7) + 1
  }

  /** Decoding the bits set_HSTRT packs gives the clamped value back. */
  lemma HstrtRoundTrip(config: Word, value: Byte)
    requires 1 <= value <= 8
    ensures HstrtOf(Merge(config, HstrtBits(value), 0x70)) == value
  {
  }

  /** set_HEND/set_OFFSET's bits: a value already clamped to -3..12, plus 3, in
      bits 7-10. */
  function HendBits(value: Int8): (b: Word)
    requires -3 <= Signed8(value) <= 12
    ensures b & !0x780 == 0
  {
    (SExt8(value) + 3) << 7
  }

  /** The int8_t a CHOPCONF word holds in bits 7-10 under the bias of 3. */
  function HendOf(w: Word): Int8
  {
    Low8((w >> 7) & 0xF) - 3
  }

  /** Decoding the bits set_HEND packs gives the clamped value back, and the
      field holds value+3, a number from 0 to 15. */
  lemma HendRoundTrip(config: Word, value: Int8)
    requires -3 <= Signed8(value) <= 12
    ensures HendOf(Merge(config, HendBits(value), 0x780)) == value
    ensures (HendBits(value) >> 7) as int == Signed8(value) + 3
  {
    if value < 0x80 {
      assert value <= 12;
    } else {
      assert 0xFD <= value;
    }
  }

  /** set_SGT's bits: a value already clamped to -64..63, converted to
      uint32_t, plus 64, in bits 16-22. */
  function SgtBits(value: Int8): (b: Word)
    requires -64 <= Signed8(value) <= 63
    ensures b & !0x7F0000 == 0
  {
    (SExt8(value) + 64) << 16
  }

  /** The int8_t a word holds in bits 16-22 under the bias of 64. */
  function SgtOf(w: Word): Int8
  {
    Low8((w >> 16) & 0x7F) - 64
  }

  /** Decoding the bits set_SGT packs gives the clamped value back, and the
      field holds value+64, a number from 0 to 127. */
  lemma SgtRoundTrip(config: Word, value: Int8)
    requires -64 <= Signed8(value) <= 63
    ensures SgtOf(Merge(config, SgtBits(value), 0x7F0000)) == value
    ensures (SgtBits(value) >> 16) as int == Signed8(value) + 64
  {
    if value < 0x80 {
      assert value <= 63;
    } else {
      assert 0xC0 <= value;
    }
  }

  /** set_TFD's uint8_t intermediate: bit 3 of the fast-decay time moved up to
      bit 7, so that shifting it by 4 lands bit 3 at bit 11 and bits 0-2 at
      bits 4-6; for a value of at most 15 nothing is lost to the uint8_t. */
  function TfdSpread(value: Byte): (b: Byte)
    requires value <= 15
    ensures b as Word == ((value as Word) << 4) | ((value & 7) as Word)
  {
    Low8(((value as Word) << 4) | ((value & 7) as Word))
  }

  /** The fast-decay time a CHOPCONF word holds in bits 4-6 (fd0..2) and bit 11 (fd3). */
  function TfdOf(w: Word): Byte
  {
    Low8(((w >> 4) & 7) | ((w >> 8) & 8))
  }

  /** Decoding the bits set_TFD packs gives the clamped value back. */
  lemma TfdRoundTrip(config: Word, value: Byte)
    requires value <= 15
    ensures TfdOf(Merge(config, (TfdSpread(value) as Word) << 4, 0x870)) == value
  {
  }

  /** set_FREEWHEEL's bits: a value already clamped to 1..4, stored minus one
      in bits 20-21. */
  function FreewheelBits(value: Byte): (b: Word)
    requires 1 <= value <= 4
    ensures b & !0x300000 == 0
    ensures (b >> 20) + 1 == value as Word
  {
    ((value as Word) - 1) << 20
  }

  /** The int16_t a 9-bit two's complement field holds. */
  function Signed9(f: Word): (h: Int16)
    requires f < 0x200
    ensures Signed16(h) == if f < 0x100 then f as int else f as int - 0x200
  {
    if f < 0x100 then f as Int16 else (f as Int16) | 0xFE00
  }

  /** set_XDIRECT_A/B: an int16_t coil current in -255..255, converted to
      uint32_t, keeps its value in a 9-bit two's complement field, at bits 0-8
      and at bits 16-24. */
  lemma XdirectRoundTrip(value: Int16)
    requires -255 <= Signed16(value) <= 255
    ensures Signed9(SExt16(value) & 0x1FF) == value
    ensures Signed9(((SExt16(value) << 16) & 0x1FF_0000) >> 16) == value
  {
    if value < 0x8000 {
      assert value <= 0xFF;
    } else {
      assert 0xFF01 <= value;
    }
  }
}
