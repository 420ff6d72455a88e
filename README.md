# TMC2130 register layer, modelled in Dafny

This project models the register access layer of the TMC2130Stepper Arduino
driver for the Trinamic TMC2130 stepper motor chip: the SPI datagram
primitive `send2130`, the shadow words the driver keeps for the chip's
write-only registers, every per-field setter from `set_I_SCALE_ANALOG` to
`set_FREEWHEEL`, and the whole-register accessors for GCONF, CHOPCONF,
COOLCONF, PWMCONF, TSTEP and DRV_STATUS.

Layout:

- `Codec.dfy` (module `Codec`) holds the pure part:
  - 32-bit words and big-endian serialisation;
  - the mask merge `(shadow & ~mask) | (value & mask)`;
  - the address-byte write test;
  - the C integer conversions the setters rely on (int8_t and int16_t as
    two's complement bit vectors, sign extension, truncation to uint8_t);
  - the clamps;
  - the per-field encodings with their decoders and round-trip lemmas;
  - the quantisation to a descending table of legal values, whose loop is a
    method proved against the predicate `Quantized`.
- `Tmc2130.dfy` (module `Tmc2130`) holds the driver:
  - class `SpiBus` models the link: a log of bytes sent and the function
    giving the byte the chip answers at each exchange;
  - class `TMC2130Stepper` holds the `cur...` shadows and the `val...` caches.
    `Send2130` and every setter are methods that update them. Each setter's
    postcondition gives:
    - the new cache;
    - the new shadow as the merge of the old one;
    - what the field reads back as;
    - the datagram that went on the bus.
- `Scenarios.dfy` (module `Scenarios`) calls setters in sequence on a fresh
  driver and states the resulting state.

The model follows the C++ code as written, including where it departs from
what the chip's register map suggests:

- `send2130` tests `addressByte << 7` on the byte promoted to `int`. The
  test holds for every nonzero address byte, so only an address byte of 0
  reads. `get_TSTEP`, `get_CHOPCONF` and `get_DRVSTATUS` therefore write a
  zero word with mask 0 and return 0. `get_GCONF` reads only when the read
  header is 0.
- In the read branch the bytes sent after the address byte are the top byte
  of the old word, 0, the second received byte and 0. This is what the
  in-place shifts leave in the word at each step.
- The following setters deviate from the chip's register map:
  - `set_IHOLD_DELAY` shifts by 16 but masks 0xF000, so it only clears bits
    12-15. Bit 12 is the top bit of IRUN: after `set_IRUN(31)` the shadow's
    IRUN field drops to 15 while `val_irun` stays 31.
  - `set_OFFSET` caches into `val_hend`, and `set_SEMAX` into `val_semin`.
  - `set_SEIMIN`, `set_SGT` and `set_SFILT` merge into the CHOPCONF shadow.
  - `set_TBL`, `set_SEUP` and `set_SEDN` pack the legal value itself, not its
    index.
  - `set_PWM_FREQ` raises every uint8_t input to 410, which the uint8_t
    truncates to 154. It always caches 154 and writes code 0b10.
  - `set_MRES` can never select 256.

The register headers `READ` and `WRITE` are defined in a header that is not
part of this model. They are constructor parameters, constrained only as
the protocol demands: bit 7 is set in a write header and clear in a read
header.

## Model

| member | source | states |
|---|---|---|
| Codec.SExt8 | TMC2130Stepper.cpp:728 | converting an int8_t to uint32_t keeps its low byte and copies the sign into the upper 24 bits |
| Codec.SExt16 | TMC2130Stepper.cpp:449 | converting an int16_t to uint32_t keeps its low half and copies the sign into the upper 16 bits |
| Codec.Low8 | TMC2130Stepper.cpp:96-99 | the byte sent for `w & 0xFF` is the low eight bits of the word |
| Codec.Low8Of16 | TMC2130Stepper.cpp:765 | assigning a uint16_t to a uint8_t keeps its low eight bits |
| Codec.Less8IsSigned | TMC2130Stepper.cpp:725-726 | the comparison on the bits with the sign bit flipped is C's signed `<` on int8_t values |
| Codec.ClampMax8 | TMC2130Stepper.cpp:358 | the clamped byte is at most the bound, equals the input when the input is within it and the bound otherwise |
| Codec.ClampMax32 | TMC2130Stepper.cpp:404 | the same upper clamp on a uint32_t |
| Codec.ClampRange8 | TMC2130Stepper.cpp:488-489 | the result lies in [lo, hi], is the input when the input is in range, and the nearer bound otherwise |
| Codec.ClampSigned8 | TMC2130Stepper.cpp:725-726 | the signed value of the result lies in [lo, hi], is the input when in range, and the nearer bound otherwise |
| Codec.ClampXdirect | TMC2130Stepper.cpp:437-438 | the coil current is clamped to -255..255 in signed terms, unchanged when already in range |
| Codec.Merge | TMC2130Stepper.cpp:94-95 | after a write the bits under the mask come from the value and every other bit from the old shadow |
| Codec.MergeFullAndEmptyMask | TMC2130Stepper.cpp:199-201 | a whole-register write (mask 0xFFFFFFFF) replaces the shadow by the value; a write with mask 0 leaves it unchanged |
| Codec.DisjointWriteKeepsField | TMC2130Stepper.cpp:357-369 | a field written first survives a later write under a disjoint mask, as IRUN survives IHOLD |
| Codec.WriteTestIsNonzero | TMC2130Stepper.cpp:93 | the write test `addressByte << 7` on the promoted byte holds exactly for nonzero address bytes |
| Codec.BytesBE | TMC2130Stepper.cpp:96-99 | the four data bytes of a write reassemble, most significant first, into the word |
| Codec.WordBE | TMC2130Stepper.cpp:106-112 | each received byte lands in its byte of the assembled word, the first one in the top byte |
| Codec.BytesOfWordBE | TMC2130Stepper.cpp:106-112 | serialising an assembled word gives back the received bytes, so serialisation and assembly are inverse |
| Codec.Datagram | TMC2130Stepper.cpp:79-99 | a write datagram is five bytes: the address byte, then bytes that reassemble into the new shadow |
| Codec.DatagramBytes | TMC2130Stepper.cpp:79-99 | the datagram is the address byte followed by bytes `>>24`, `>>16`, `>>8` and `>>0` of the word |
| Codec.ReadAssembly | TMC2130Stepper.cpp:106-112 | in the read branch the bytes sent after the first are 0, the second received byte and 0, and the shift-and-or steps give the received bytes most significant first |
| Codec.LargestAtMostUnique | TMC2130Stepper.cpp:575-580 | on a descending table the largest member at most a bound sits at a single index |
| Codec.Floor | TMC2130Stepper.cpp:574 | an input at least the smallest member is kept; a smaller one is raised to it, truncated to a uint8_t |
| Codec.FirstAtMostIsLargest | TMC2130Stepper.cpp:575-580 | on a descending table, the first member at most v is at least every other member at most v |
| Codec.Quantize | TMC2130Stepper.cpp:574-580 | the loop leaves the largest member at most the raised input, truncated to a uint8_t, or the raised input when no member is at most it |
| Codec.QuantizedMember | TMC2130Stepper.cpp:571-584 | on a table of byte-sized members the quantised value is always a member, the largest at most the raised input |
| Codec.TblDescending | TMC2130Stepper.cpp:572 | set_TBL's table is strictly descending |
| Codec.SeupDescending | TMC2130Stepper.cpp:675 | set_SEUP's table is strictly descending |
| Codec.SednDescending | TMC2130Stepper.cpp:700 | set_SEDN's table is strictly descending |
| Codec.PwmFreqDescending | TMC2130Stepper.cpp:763 | set_PWM_FREQ's table is strictly descending |
| Codec.MresDescending | TMC2130Stepper.cpp:621 | set_MRES's table is strictly descending |
| Codec.TblSetting | TMC2130Stepper.cpp:572-582 | the cached blank time is the largest of 54, 36, 24, 16 at most max(input, 16) |
| Codec.TblPacking | TMC2130Stepper.cpp:583 | the time itself, not its index, is packed: 54 gives 0x10000 under mask 0x18000, the other three give 0 |
| Codec.SeupSetting | TMC2130Stepper.cpp:675-685 | the cached step is the largest of 8, 4, 2, 1 at most max(input, 1) |
| Codec.SeupPacking | TMC2130Stepper.cpp:686 | the step itself is packed: 1 and 2 keep their bits under mask 0x60, 4 and 8 give 0 |
| Codec.SednSetting | TMC2130Stepper.cpp:700-710 | the cached count is the largest of 32, 8, 2, 1 at most max(input, 1) |
| Codec.SednPacking | TMC2130Stepper.cpp:711 | the count itself is packed: 1 and 2 keep their bits under mask 0x6000, 8 and 32 give 0 |
| Codec.PwmFreqSetting | TMC2130Stepper.cpp:762-775 | whatever the input, the quantised value is 154 (410 truncated) and bits 16-17 receive code 0b10 |
| Codec.MresCodeIsIndex | TMC2130Stepper.cpp:622 | the code written for each resolution is its index in the table |
| Codec.MresMemberFits | TMC2130Stepper.cpp:626 | every resolution after 256 fits the uint8_t cache unchanged |
| Codec.MresLargest | TMC2130Stepper.cpp:624-626 | the first resolution at most the input is the largest such, and is never 256 |
| Codec.MresMatch | TMC2130Stepper.cpp:624-628 | where the loop stops, the cache, the index and the code written are the set_MRES outcome for the input |
| Codec.MresSixteen | TMC2130Stepper.cpp:620-631 | every input from 16 to 31 selects resolution 16 at index 4 |
| Codec.IholdDelayClearsOnly | TMC2130Stepper.cpp:376 | set_IHOLD_DELAY's bits never meet its mask, so the write clears bits 12-15 and keeps everything else, the delay field included |
| Codec.HstrtBits | TMC2130Stepper.cpp:491 | the hysteresis start minus one occupies only bits 4-6 |
| Codec.HstrtRoundTrip | TMC2130Stepper.cpp:486-496 | decoding bits 4-6 of the merged word gives back the clamped hysteresis start |
| Codec.HendBits | TMC2130Stepper.cpp:519 | the hysteresis end plus 3 occupies only bits 7-10 |
| Codec.HendRoundTrip | TMC2130Stepper.cpp:514-524 | decoding bits 7-10 of the merged word, less 3, gives back the clamped value; the field holds value+3 in 0..15 |
| Codec.SgtBits | TMC2130Stepper.cpp:728 | the stallGuard threshold plus 64 occupies only bits 16-22 |
| Codec.SgtRoundTrip | TMC2130Stepper.cpp:724-729 | decoding bits 16-22 of the merged word, less 64, gives back the clamped threshold; the field holds value+64 in 0..127 |
| Codec.TfdSpread | TMC2130Stepper.cpp:504 | the uint8_t intermediate of a value at most 15 loses nothing: bit 3 moves to bit 7 and bits 0-2 are duplicated at the bottom |
| Codec.TfdRoundTrip | TMC2130Stepper.cpp:500-510 | reading bits 4-6 and bit 11 of the merged word gives back the clamped fast decay time |
| Codec.FreewheelBits | TMC2130Stepper.cpp:799 | the freewheel option minus one occupies only bits 20-21 |
| Codec.Signed9 | TMC2130Stepper.cpp:436-450 | a 9-bit two's complement field decodes to the value -256..255 it stands for |
| Codec.XdirectRoundTrip | TMC2130Stepper.cpp:436-450 | a coil current in -255..255, sign-extended, decodes back from bits 0-8 and, shifted by 16, from bits 16-24 |
| Tmc2130.SpiBus.Transfer | TMC2130Stepper.cpp:79 | each exchange appends the byte sent to the log and returns the byte the chip answers at that position |
| Tmc2130.TMC2130Stepper.constructor | TMC2130Stepper.cpp:31-38 | the driver keeps the given headers and bus; all shadows and caches start at zero |
| Tmc2130.TMC2130Stepper.Send2130 | TMC2130Stepper.cpp:73-124 | the status is the byte received for the address byte; a nonzero address byte writes the mask merge and sends it in a datagram; address byte 0 assembles the four received bytes and sends what the C shifts leave |
| Tmc2130.TMC2130Stepper.SendWord | TMC2130Stepper.cpp:96-99 | the four transfers send the word most significant byte first |
| Tmc2130.TMC2130Stepper.ReceiveWord | TMC2130Stepper.cpp:106-112 | the four transfers return the received bytes assembled most significant first |
| Tmc2130.TMC2130Stepper.GetGconf | TMC2130Stepper.cpp:190-197 | with a zero read header the result is the four bytes answered after the address byte; otherwise a zero word is written and 0 returned |
| Tmc2130.TMC2130Stepper.SetGconf | TMC2130Stepper.cpp:199-201 | the GCONF shadow becomes the value, which is sent whole to register 0 |
| Tmc2130.TMC2130Stepper.SetIScaleAnalog | TMC2130Stepper.cpp:205-209 | the cache is the input clamped to 1; bit 0 of the GCONF shadow reads back as it and every other bit is kept; the new shadow is sent to GCONF |
| Tmc2130.TMC2130Stepper.SetInternalRSense | TMC2130Stepper.cpp:213-217 | the cache is the input clamped to 1; bit 1 of the GCONF shadow reads back as it and every other bit is kept; the new shadow is sent to GCONF |
| Tmc2130.TMC2130Stepper.SetEnPwmMode | TMC2130Stepper.cpp:221-225 | the cache is the input clamped to 1; bit 2 of the GCONF shadow reads back as it and every other bit is kept; the new shadow is sent to GCONF |
| Tmc2130.TMC2130Stepper.SetEncCommutation | TMC2130Stepper.cpp:229-233 | the cache is the input clamped to 1; bit 3 of the GCONF shadow reads back as it and every other bit is kept; the new shadow is sent to GCONF |
| Tmc2130.TMC2130Stepper.SetShaft | TMC2130Stepper.cpp:237-245 | the cache is the input clamped to 1; bit 4 of the GCONF shadow reads back as it and every other bit is kept; the new shadow is sent to GCONF |
| Tmc2130.TMC2130Stepper.SetDiag0Error | TMC2130Stepper.cpp:249-253 | the cache is the input clamped to 1; bit 5 of the GCONF shadow reads back as it and every other bit is kept; the new shadow is sent to GCONF |
| Tmc2130.TMC2130Stepper.SetDiag0Otpw | TMC2130Stepper.cpp:257-261 | the cache is the input clamped to 1; bit 6 of the GCONF shadow reads back as it and every other bit is kept; the new shadow is sent to GCONF |
| Tmc2130.TMC2130Stepper.SetDiag0Stall | TMC2130Stepper.cpp:265-269 | the cache is the input clamped to 1; bit 7 of the GCONF shadow reads back as it and every other bit is kept; the new shadow is sent to GCONF |
| Tmc2130.TMC2130Stepper.SetDiag1Stall | TMC2130Stepper.cpp:273-277 | the cache is the input clamped to 1; bit 8 of the GCONF shadow reads back as it and every other bit is kept; the new shadow is sent to GCONF |
| Tmc2130.TMC2130Stepper.SetDiag1Index | TMC2130Stepper.cpp:281-285 | the cache is the input clamped to 1; bit 9 of the GCONF shadow reads back as it and every other bit is kept; the new shadow is sent to GCONF |
| Tmc2130.TMC2130Stepper.SetDiag1Onstate | TMC2130Stepper.cpp:289-293 | the cache is the input clamped to 1; bit 10 of the GCONF shadow reads back as it and every other bit is kept; the new shadow is sent to GCONF |
| Tmc2130.TMC2130Stepper.SetDiag1StepsSkipped | TMC2130Stepper.cpp:297-301 | the cache is the input clamped to 1; bit 11 of the GCONF shadow reads back as it and every other bit is kept; the new shadow is sent to GCONF |
| Tmc2130.TMC2130Stepper.SetDiag0IntPushpull | TMC2130Stepper.cpp:305-309 | the cache is the input clamped to 1; bit 12 of the GCONF shadow reads back as it and every other bit is kept; the new shadow is sent to GCONF |
| Tmc2130.TMC2130Stepper.SetDiag1Pushpull | TMC2130Stepper.cpp:313-317 | the cache is the input clamped to 1; bit 13 of the GCONF shadow reads back as it and every other bit is kept; the new shadow is sent to GCONF |
| Tmc2130.TMC2130Stepper.SetSmallHysterisis | TMC2130Stepper.cpp:321-325 | the cache is the input clamped to 1; bit 14 of the GCONF shadow reads back as it and every other bit is kept; the new shadow is sent to GCONF |
| Tmc2130.TMC2130Stepper.SetStopEnable | TMC2130Stepper.cpp:329-333 | the cache is the input clamped to 1; bit 15 of the GCONF shadow reads back as it and every other bit is kept; the new shadow is sent to GCONF |
| Tmc2130.TMC2130Stepper.SetDirectMode | TMC2130Stepper.cpp:337-341 | the cache is the input clamped to 1; bit 16 of the GCONF shadow reads back as it and every other bit is kept; the new shadow is sent to GCONF |
| Tmc2130.TMC2130Stepper.SetIhold | TMC2130Stepper.cpp:357-361 | the cache is the input clamped to 31; bits 0-4 of IHOLD_IRUN read back as it, other bits kept; the new shadow is sent |
| Tmc2130.TMC2130Stepper.SetIrun | TMC2130Stepper.cpp:365-369 | the cache is the input clamped to 31; bits 8-12 of IHOLD_IRUN read back as it, other bits kept; the new shadow is sent |
| Tmc2130.TMC2130Stepper.SetIholdDelay | TMC2130Stepper.cpp:373-377 | the cache is the input clamped to 15, but the shadow only loses bits 12-15: the delay field is not written |
| Tmc2130.TMC2130Stepper.SetTpowerdown | TMC2130Stepper.cpp:384-387 | the cache is the input unclamped; bits 0-7 of TPOWERDOWN read back as it; the new shadow is sent |
| Tmc2130.TMC2130Stepper.GetTstep | TMC2130Stepper.cpp:392-396 | the result is 0 whatever the chip answers: the nonzero address byte sends a zero word instead of reading |
| Tmc2130.TMC2130Stepper.SetTpwmthrs | TMC2130Stepper.cpp:403-407 | the cache is the input clamped to 1048575; bits 0-19 read back as it, other bits kept; the new shadow is sent |
| Tmc2130.TMC2130Stepper.SetTcoolthrs | TMC2130Stepper.cpp:414-418 | the cache is the input clamped to 1048575; bits 0-19 read back as it, other bits kept; the new shadow is sent |
| Tmc2130.TMC2130Stepper.SetThigh | TMC2130Stepper.cpp:425-429 | the cache is the input clamped to 1048575; bits 0-19 read back as it, other bits kept; the new shadow is sent |
| Tmc2130.TMC2130Stepper.SetXdirectA | TMC2130Stepper.cpp:436-441 | the cache is the current clamped to -255..255; bits 0-8 decode as a 9-bit signed number to it, other bits kept |
| Tmc2130.TMC2130Stepper.SetXdirectB | TMC2130Stepper.cpp:445-450 | the cache is the current clamped to -255..255; bits 16-24 decode as a 9-bit signed number to it, other bits kept |
| Tmc2130.TMC2130Stepper.SetVdcmin | TMC2130Stepper.cpp:457-461 | the cache is the input clamped to 16777215; bits 0-23 read back as it, other bits kept; the new shadow is sent |
| Tmc2130.TMC2130Stepper.GetChopconf | TMC2130Stepper.cpp:466-470 | the result is 0 whatever the chip answers: the nonzero address byte sends a zero word instead of reading |
| Tmc2130.TMC2130Stepper.SetChopconf | TMC2130Stepper.cpp:472-474 | the CHOPCONF shadow becomes the value, which is sent whole |
| Tmc2130.TMC2130Stepper.SetToff | TMC2130Stepper.cpp:478-482 | the cache is the input clamped to 15; bits 0-3 of CHOPCONF read back as it, other bits kept; the new shadow is sent |
| Tmc2130.TMC2130Stepper.SetHstrt | TMC2130Stepper.cpp:486-496 | with chm 0 the cache is the input clamped to 1..8 and bits 4-6 decode back to it; with chm 1 no cache, shadow or bus byte changes |
| Tmc2130.TMC2130Stepper.SetTfd | TMC2130Stepper.cpp:500-510 | with chm 1 the cache is the input clamped to 15 and bits 4-6 with bit 11 decode back to it; with chm 0 nothing changes |
| Tmc2130.TMC2130Stepper.SetHend | TMC2130Stepper.cpp:514-524 | with chm 0 the cache is the input clamped to -3..12 and bits 7-10, less 3, decode back to it; with chm 1 nothing changes |
| Tmc2130.TMC2130Stepper.SetOffset | TMC2130Stepper.cpp:528-538 | with chm 1 the value, clamped to -3..12, is cached in valHend and decodes back from bits 7-10; with chm 0 nothing changes |
| Tmc2130.TMC2130Stepper.SetDisfdcc | TMC2130Stepper.cpp:542-551 | with chm 1 the cache is the input clamped to 1; bit 12 of the CHOPCONF shadow reads back as it and every other bit is kept; the new shadow is sent to CHOPCONF; with chm 0 nothing changes |
| Tmc2130.TMC2130Stepper.SetRndtf | TMC2130Stepper.cpp:555-559 | the cache is the input clamped to 1; bit 13 of the CHOPCONF shadow reads back as it and every other bit is kept; the new shadow is sent to CHOPCONF |
| Tmc2130.TMC2130Stepper.SetChm | TMC2130Stepper.cpp:563-567 | the cache is the input clamped to 1; bit 14 of the CHOPCONF shadow reads back as it and every other bit is kept; the new shadow is sent to CHOPCONF |
| Tmc2130.TMC2130Stepper.SetTbl | TMC2130Stepper.cpp:571-584 | the cache is the largest legal blank time at most max(input, 16); the time itself is merged under 0x18000, so only 54 leaves a nonzero code |
| Tmc2130.TMC2130Stepper.SetVsense | TMC2130Stepper.cpp:588-592 | the cache is the input clamped to 1; bit 17 of the CHOPCONF shadow reads back as it and every other bit is kept; the new shadow is sent to CHOPCONF |
| Tmc2130.TMC2130Stepper.SetVhighfs | TMC2130Stepper.cpp:596-600 | the cache is the input clamped to 1; bit 18 of the CHOPCONF shadow reads back as it and every other bit is kept; the new shadow is sent to CHOPCONF |
| Tmc2130.TMC2130Stepper.SetVhighchm | TMC2130Stepper.cpp:604-608 | the cache is the input clamped to 1; bit 19 of the CHOPCONF shadow reads back as it and every other bit is kept; the new shadow is sent to CHOPCONF |
| Tmc2130.TMC2130Stepper.SetSync | TMC2130Stepper.cpp:612-616 | the cache is the input clamped to 15; bits 20-23 of CHOPCONF read back as it, other bits kept; the new shadow is sent |
| Tmc2130.TMC2130Stepper.SetMres | TMC2130Stepper.cpp:620-631 | the cache is the largest resolution at most the input, never 256; its index is merged into bits 24-27 and every other bit kept |
| Tmc2130.TMC2130Stepper.SetIntpol | TMC2130Stepper.cpp:635-639 | the cache is the input clamped to 1; bit 28 of the CHOPCONF shadow reads back as it and every other bit is kept; the new shadow is sent to CHOPCONF |
| Tmc2130.TMC2130Stepper.SetDedge | TMC2130Stepper.cpp:643-647 | the cache is the input clamped to 1; bit 29 of the CHOPCONF shadow reads back as it and every other bit is kept; the new shadow is sent to CHOPCONF |
| Tmc2130.TMC2130Stepper.SetDiss2g | TMC2130Stepper.cpp:651-655 | the cache is the input clamped to 1; bit 30 of the CHOPCONF shadow reads back as it and every other bit is kept; the new shadow is sent to CHOPCONF |
| Tmc2130.TMC2130Stepper.SetCoolconf | TMC2130Stepper.cpp:660-662 | the COOLCONF shadow becomes the value, which is sent whole |
| Tmc2130.TMC2130Stepper.SetSemin | TMC2130Stepper.cpp:666-670 | the cache is the input clamped to 15; bits 0-3 of COOLCONF read back as it, other bits kept; the new shadow is sent |
| Tmc2130.TMC2130Stepper.SetSeup | TMC2130Stepper.cpp:674-687 | the cache is the largest legal step at most max(input, 1); the step itself is merged under 0x60, so 4 and 8 leave code 0 |
| Tmc2130.TMC2130Stepper.SetSemax | TMC2130Stepper.cpp:691-695 | the input clamped to 15 is cached in valSemin and bits 8-11 of COOLCONF read back as it; valSemax is untouched |
| Tmc2130.TMC2130Stepper.SetSedn | TMC2130Stepper.cpp:699-712 | the cache is the largest legal count at most max(input, 1); the count itself is merged under 0x6000, so 8 and 32 leave code 0 |
| Tmc2130.TMC2130Stepper.SetSeimin | TMC2130Stepper.cpp:716-720 | the cache is the input clamped to 1; bit 15 of the CHOPCONF shadow, not COOLCONF, reads back as it and is sent to CHOPCONF |
| Tmc2130.TMC2130Stepper.SetSgt | TMC2130Stepper.cpp:724-729 | the cache is the threshold clamped to -64..63; bits 16-22 of the CHOPCONF shadow, less 64, decode back to it |
| Tmc2130.TMC2130Stepper.SetSfilt | TMC2130Stepper.cpp:733-737 | the cache is the input clamped to 1; bit 24 of the CHOPCONF shadow, not COOLCONF, reads back as it and is sent to CHOPCONF |
| Tmc2130.TMC2130Stepper.SetPwmconf | TMC2130Stepper.cpp:742-744 | the PWMCONF shadow becomes the value, which is sent whole |
| Tmc2130.TMC2130Stepper.SetPwmAmpl | TMC2130Stepper.cpp:748-751 | the cache is the input unclamped; bits 0-7 of PWMCONF read back as it, other bits kept |
| Tmc2130.TMC2130Stepper.SetPwmGrad | TMC2130Stepper.cpp:755-758 | the cache is the input unclamped; bits 8-15 of PWMCONF read back as it, other bits kept |
| Tmc2130.TMC2130Stepper.SetPwmFreq | TMC2130Stepper.cpp:762-775 | whatever the input, the cache is 154 and bits 16-17 of PWMCONF hold code 0b10, other bits kept |
| Tmc2130.TMC2130Stepper.SetPwmAutoscale | TMC2130Stepper.cpp:779-783 | the cache is the input clamped to 1; bit 18 of the PWMCONF shadow reads back as it and every other bit is kept; the new shadow is sent to PWMCONF |
| Tmc2130.TMC2130Stepper.SetPwmSymmetric | TMC2130Stepper.cpp:787-791 | the cache is the input clamped to 1; bit 19 of the PWMCONF shadow reads back as it and every other bit is kept; the new shadow is sent to PWMCONF |
| Tmc2130.TMC2130Stepper.SetFreewheel | TMC2130Stepper.cpp:795-800 | the cache is the input clamped to 1..4; bits 20-21 plus one read back as it, other bits kept |
| Tmc2130.TMC2130Stepper.GetDrvstatus | TMC2130Stepper.cpp:805-809 | the result is 0 whatever the chip answers: the nonzero address byte sends a zero word instead of reading |
| Scenarios.RunThenHoldCurrent | TMC2130Stepper.cpp:357-369 | set_IRUN then set_IHOLD on a zero shadow leaves both clamped currents in their fields and nothing else set |
| Scenarios.FullCurrent | TMC2130Stepper.cpp:357-369 | set_IRUN(31) then set_IHOLD(31) give 0x1F1F and two datagrams to register 0x10 |
| Scenarios.TfdIgnoredInSpreadCycle | TMC2130Stepper.cpp:500-510 | with chm 0, set_TFD changes no cache and no shadow, and sends nothing |
| Scenarios.OffsetCachedAsHend | TMC2130Stepper.cpp:528-538 | after set_CHM(1), set_OFFSET(5) leaves 5 in valHend, 0 in valOffset and 8 in bits 7-10 |
| Scenarios.SemaxCachedAsSemin | TMC2130Stepper.cpp:691-695 | set_SEMAX(9) leaves 9 in valSemin and 0 in valSemax |
| Scenarios.SgtWrittenToChopconf | TMC2130Stepper.cpp:724-729 | set_SGT(0) puts 64 in bits 16-22 of CHOPCONF and leaves COOLCONF at 0 |
| Scenarios.IholdDelayClobbersIrun | TMC2130Stepper.cpp:365-377 | after set_IRUN(31), set_IHOLD_DELAY with any input leaves 15 in IRUN's bits 8-12 (shadow 0xF00) while the cache still holds 31 |
| Scenarios.SgtClobbersTbl | TMC2130Stepper.cpp:571-584 | after set_TBL(54), set_SGT(-64) clears the blank time code in bits 15-16 while the cache still holds 54 |
| Scenarios.SfiltClobbersMres | TMC2130Stepper.cpp:620-631 | after set_MRES caches 16 (code 0b0100), set_SFILT(1) turns the code in bits 24-27 into 0b0101 while the cache still holds 16 |
| Scenarios.MresSixteenSteps | TMC2130Stepper.cpp:620-631 | any input from 16 to 31 caches 16 and writes 0b0100 to bits 24-27 |
| Scenarios.PwmFreqAlwaysTwo | TMC2130Stepper.cpp:762-775 | any input caches 154 and leaves 0x20000 in a zero PWMCONF shadow |
| Scenarios.TstepReadsZero | TMC2130Stepper.cpp:392-396 | get_TSTEP returns 0 whatever the bus answers and sends 0x12 then four zero bytes |
| Scenarios.GconfReadsReply | TMC2130Stepper.cpp:190-197 | with a zero read header get_GCONF returns the four bytes answered after the address byte, most significant first |

## Left out

- `begin` sets pin modes and levels and calls `SPI.begin`: GPIO and peripheral set-up with no register traffic.
- `checkStatus` sends two datagrams through `send2130`, to GSTAT and DRV_STATUS, and prints what comes back; it changes no shadow or cache. Every debug `Serial.print` block only logs.
- `setCurrent` and `setSSSCurrent` compute the current scale in floating point; they are not modelled.
- The SPI clock settings, `SPI.beginTransaction`/`endTransaction` and the chip-select toggling around each datagram are not modelled; a datagram is the sequence of bytes it appends to the bus log.
- The constructor's pin bookkeeping is not modelled; the constructor instead takes the two headers and the bus.
- Tmc2130.TMC2130Stepper.constructor: the header that declares the shadows and caches is not part of this model; they are assumed to start at zero.
- The `get_` accessors that return a cached `val_` field are the public fields of the class rather than separate members.
- Tmc2130.TMC2130Stepper.Send2130: the pointer `config` is passed in and the new word returned, and the caller assigns it to the shadow or local it pointed to; aliasing through the pointer is not modelled.
- Tmc2130.TMC2130Stepper.Send2130: the status byte is returned, but no caller in the model uses it, as no accessor in the source does.
- Codec.DisjointWriteKeepsField: shadow coherency (each field of a shadow reads back as its cached value) holds only between setters with disjoint masks. It fails for overlapping pairs in the source: `set_IHOLD_DELAY` (0xF000) covers bit 12 of IRUN; `set_SEIMIN` (bit 15) covers bit 15 of TBL; `set_SGT` (0x7F0000) covers bit 16 of TBL, VSENSE, VHIGHFS, VHIGHCHM and bits 20-22 of SYNC; `set_SFILT` (bit 24) covers bit 0 of the MRES code. The setters' postconditions state these effects, and three scenarios exhibit them.
