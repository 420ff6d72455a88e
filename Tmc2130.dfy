/** The TMC2130Stepper driver object: the SPI datagram primitive send2130, the
    shadows it keeps of the chip's write-only registers, and the per-field and
    whole-register accessors built on it. */
module Tmc2130 {
  import opened Codec

  /** A write header: the protocol sets bit 7 of the address byte of a write. */
  type WriteHeader = b: Byte | b & 0x80 == 0x80 witness 0x80
  /** A read header: bit 7 of the address byte of a read is clear. */
  type ReadHeader = b: Byte | b & 0x80 == 0 witness 0

  /** Address of GCONF, global configuration flags. */
  const REG_GCONF: Byte := 0x00
  /** Address of IHOLD_IRUN, driver current control. */
  const REG_IHOLD_IRUN: Byte := 0x10
  /** Address of TPOWERDOWN, delay before power down. */
  const REG_TPOWERDOWN: Byte := 0x11
  /** Address of TSTEP, measured time between two microsteps. */
  const REG_TSTEP: Byte := 0x12
  /** Address of TPWMTHRS, upper velocity for stealthChop. */
  const REG_TPWMTHRS: Byte := 0x13
  /** Address of TCOOLTHRS, lower velocity for coolStep and stallGuard. */
  const REG_TCOOLTHRS: Byte := 0x14
  /** Address of THIGH, velocity threshold for the high-velocity settings. */
  const REG_THIGH: Byte := 0x15
  /** Address of XDIRECT, direct coil currents. */
  const REG_XDIRECT: Byte := 0x2D
  /** Address of VDCMIN, velocity for dcStep. */
  const REG_VDCMIN: Byte := 0x33
  /** Address of CHOPCONF, chopper and driver configuration. */
  const REG_CHOPCONF: Byte := 0x6C
  /** Address of COOLCONF, coolStep and stallGuard2 configuration. */
  const REG_COOLCONF: Byte := 0x6D
  /** Address of DRV_STATUS, stallGuard2 value and driver error flags. */
  const REG_DRVSTATUS: Byte := 0x6F
  /** Address of PWMCONF, stealthChop voltage PWM configuration. */
  const REG_PWMCONF: Byte := 0x70

  /** The SPI link seen by the driver: every exchange sends one byte and
      receives one. `sent` logs the bytes sent so far; `reply(n)` is the byte
      the chip answers at the n-th exchange. */
  class SpiBus {
    var sent: seq<Byte>
    const reply: nat -> Byte

    constructor(reply: nat -> Byte)
      ensures sent == [] && this.reply == reply
    {
      sent := [];
      this.reply := reply;
    }

    /** SPI.transfer: send one byte, return the one received at the same time. */
    method Transfer(b: Byte) returns (r: Byte)
      modifies this`sent
      ensures sent == old(sent) + [b]
      ensures r == reply(|old(sent)|)
    {
      r := reply(|sent|);
      sent := sent + [b];
    }
  }

  /** The driver object. The chip's configuration registers cannot be read
      back, so every write goes through a shadow word `cur...` that send2130
      merges the new bits into before sending the whole word; each field
      setter also caches the value it was given in `val...`. */
  class TMC2130Stepper {
    /** The header or-ed into the register address of a write datagram. */
    const WRITE: WriteHeader
    /** The header or-ed into the register address of a read datagram. */
    const READ: ReadHeader
    const spi: SpiBus

    // Shadows of the write-only registers: the word last written to each.
    var curGconf: Word
    var curIholdIrun: Word
    var curTpowerdown: Word
    var curTpwmthrs: Word
    var curTcoolthrs: Word
    var curThigh: Word
    var curXdirect: Word
    var curVdcmin: Word
    var curChopconf: Word
    var curCoolconf: Word
    var curPwmconf: Word

    // The value last given to each field's setter, returned by its get_ accessor.
    var valIScaleAnalog: Byte
    var valInternalRSense: Byte
    var valEnPwmMode: Byte
    var valEncCommutation: Byte
    var valShaft: Byte
    var valDiag0Error: Byte
    var valDiag0Otpw: Byte
    var valDiag0Stall: Byte
    var valDiag1Stall: Byte
    var valDiag1Index: Byte
    var valDiag1Onstate: Byte
    var valDiag1StepsSkipped: Byte
    var valDiag0IntPushpull: Byte
    var valDiag1Pushpull: Byte
    var valSmallHysterisis: Byte
    var valStopEnable: Byte
    var valDirectMode: Byte
    var valIhold: Byte
    var valIrun: Byte
    var valIholdDelay: Byte
    var valTpowerdown: Byte
    var valTpwmthrs: Word
    var valTcoolthrs: Word
    var valThigh: Word
    var valXdirectA: Int16
    var valXdirectB: Int16
    var valVdcmin: Word
    var valToff: Byte
    var valHstrt: Byte
    var valTfd: Byte
    var valHend: Int8
    var valOffset: Int8
    var valDisfdcc: Byte
    var valRndtf: Byte
    var valChm: Byte
    var valTbl: Byte
    var valVsense: Byte
    var valVhighfs: Byte
    var valVhighchm: Byte
    var valSync: Byte
    var valMres: Byte
    var valIntpol: Byte
    var valDedge: Byte
    var valDiss2g: Byte
    var valSemin: Byte
    var valSeup: Byte
    var valSemax: Byte
    var valSedn: Byte
    var valSeimin: Byte
    var valSgt: Int8
    var valSfilt: Byte
    var valPwmAmpl: Byte
    var valPwmGrad: Byte
    var valPwmFreq: Byte
    var valPwmAutoscale: Byte
    var valPwmSymmetric: Byte
    var valFreewheel: Byte

    /** Every shadow and every cached value is zero. */
    ghost predicate Zeroed()
      reads this
    {
      curGconf == 0 &&
      curIholdIrun == 0 &&
      curTpowerdown == 0 &&
      curTpwmthrs == 0 &&
      curTcoolthrs == 0 &&
      curThigh == 0 &&
      curXdirect == 0 &&
      curVdcmin == 0 &&
      curChopconf == 0 &&
      curCoolconf == 0 &&
      curPwmconf == 0 &&
      valIScaleAnalog == 0 &&
      valInternalRSense == 0 &&
      valEnPwmMode == 0 &&
      valEncCommutation == 0 &&
      valShaft == 0 &&
      valDiag0Error == 0 &&
      valDiag0Otpw == 0 &&
      valDiag0Stall == 0 &&
      valDiag1Stall == 0 &&
      valDiag1Index == 0 &&
      valDiag1Onstate == 0 &&
      valDiag1StepsSkipped == 0 &&
      valDiag0IntPushpull == 0 &&
      valDiag1Pushpull == 0 &&
      valSmallHysterisis == 0 &&
      valStopEnable == 0 &&
      valDirectMode == 0 &&
      valIhold == 0 &&
      valIrun == 0 &&
      valIholdDelay == 0 &&
      valTpowerdown == 0 &&
      valTpwmthrs == 0 &&
      valTcoolthrs == 0 &&
      valThigh == 0 &&
      valXdirectA == 0 &&
      valXdirectB == 0 &&
      valVdcmin == 0 &&
      valToff == 0 &&
      valHstrt == 0 &&
      valTfd == 0 &&
      valHend == 0 &&
      valOffset == 0 &&
      valDisfdcc == 0 &&
      valRndtf == 0 &&
      valChm == 0 &&
      valTbl == 0 &&
      valVsense == 0 &&
      valVhighfs == 0 &&
      valVhighchm == 0 &&
      valSync == 0 &&
      valMres == 0 &&
      valIntpol == 0 &&
      valDedge == 0 &&
      valDiss2g == 0 &&
      valSemin == 0 &&
      valSeup == 0 &&
      valSemax == 0 &&
      valSedn == 0 &&
      valSeimin == 0 &&
      valSgt == 0 &&
      valSfilt == 0 &&
      valPwmAmpl == 0 &&
      valPwmGrad == 0 &&
      valPwmFreq == 0 &&
      valPwmAutoscale == 0 &&
      valPwmSymmetric == 0 &&
      valFreewheel == 0
    }

    /** A driver on the given bus; every shadow and cache starts at zero. */
    constructor(write: WriteHeader, read: ReadHeader, bus: SpiBus)
      ensures WRITE == write && READ == read && spi == bus
      ensures Zeroed()
    {
      WRITE := write;
      READ := read;
      spi := bus;

      // Shadows
      curGconf := 0;
      curIholdIrun := 0;
      curTpowerdown := 0;
      curTpwmthrs := 0;
      curTcoolthrs := 0;
      curThigh := 0;
      curXdirect := 0;
      curVdcmin := 0;
      curChopconf := 0;
      curCoolconf := 0;
      curPwmconf := 0;

      // Cached values
      valIScaleAnalog := 0;
      valInternalRSense := 0;
      valEnPwmMode := 0;
      valEncCommutation := 0;
      valShaft := 0;
      valDiag0Error := 0;
      valDiag0Otpw := 0;
      valDiag0Stall := 0;
      valDiag1Stall := 0;
      valDiag1Index := 0;
      valDiag1Onstate := 0;
      valDiag1StepsSkipped := 0;
      valDiag0IntPushpull := 0;
      valDiag1Pushpull := 0;
      valSmallHysterisis := 0;
      valStopEnable := 0;
      valDirectMode := 0;
      valIhold := 0;
      valIrun := 0;
      valIholdDelay := 0;
      valTpowerdown := 0;
      valTpwmthrs := 0;
      valTcoolthrs := 0;
      valThigh := 0;
      valXdirectA := 0;
      valXdirectB := 0;
      valVdcmin := 0;
      valToff := 0;
      valHstrt := 0;
      valTfd := 0;
      valHend := 0;
      valOffset := 0;
      valDisfdcc := 0;
      valRndtf := 0;
      valChm := 0;
      valTbl := 0;
      valVsense := 0;
      valVhighfs := 0;
      valVhighchm := 0;
      valSync := 0;
      valMres := 0;
      valIntpol := 0;
      valDedge := 0;
      valDiss2g := 0;
      valSemin := 0;
      valSeup := 0;
      valSemax := 0;
      valSedn := 0;
      valSeimin := 0;
      valSgt := 0;
      valSfilt := 0;
      valPwmAmpl := 0;
      valPwmGrad := 0;
      valPwmFreq := 0;
      valPwmAutoscale := 0;
      valPwmSymmetric := 0;
      valFreewheel := 0;
    }

    // -------------------------------------------------------------------------
    // The datagram primitive

    /** send2130: exchange the address byte, whose answer is the status byte
        returned, then either write or read the word `config` (a pointer in
        the C code, here passed in and returned as `config'`). Any nonzero
        address byte is taken for a write: the mask merge of `value` into
        `config` is sent, most significant byte first. Only the address byte
        0 reads: `config'` is assembled from the four bytes received, most
        significant first, while the bytes sent are the old top byte of
        `config`, then what the partly assembled word holds at each step. */
    method Send2130(addressByte: Byte, config: Word, value: Word, mask: Word) returns (s: Byte, config': Word)
      modifies spi`sent
      ensures s == spi.reply(|old(spi.sent)|)
      ensures addressByte != 0 ==>
        config' == Merge(config, value, mask) &&
        spi.sent == old(spi.sent) + Datagram(addressByte, config')
      ensures addressByte == 0 ==>
        var k := |old(spi.sent)|;
        config' == WordBE(spi.reply(k + 1), spi.reply(k + 2), spi.reply(k + 3), spi.reply(k + 4)) &&
        spi.sent == old(spi.sent) + [addressByte, Low8(config >> 24), 0, spi.reply(k + 2), 0]
    {
      s := spi.Transfer(addressByte & 0xFF);
      WriteTestIsNonzero(addressByte);
      if WriteTest(addressByte) {
        config' := Merge(config, value, mask);
        SendWord(config');
        DatagramBytes(addressByte, config');
      } else {
        config' := ReceiveWord(config);
      }
    }

    /** The write branch's four transfers: the word, most significant byte first. */
    method SendWord(w: Word)
      modifies spi`sent
      ensures spi.sent == old(spi.sent) + [Low8(w >> 24), Low8(w >> 16), Low8(w >> 8), Low8(w)]
    {
      var r := spi.Transfer(Low8(w >> 24));
      r := spi.Transfer(Low8(w >> 16));
      r := spi.Transfer(Low8(w >> 8));
      r := spi.Transfer(Low8(w));
    }

    /** The read branch's four transfers: each received byte is or-ed into the
        word and shifted up, and each byte sent is taken from the word as it
        stands at that point. */
    method ReceiveWord(config: Word) returns (config': Word)
      modifies spi`sent
      ensures var k := |old(spi.sent)|;
        config' == WordBE(spi.reply(k), spi.reply(k + 1), spi.reply(k + 2), spi.reply(k + 3)) &&
        spi.sent == old(spi.sent) + [Low8(config >> 24), 0, spi.reply(k + 1), 0]
    {
      var r1 := spi.Transfer(Low8(config >> 24));
      var r2 := spi.Transfer(Low8((r1 as Word << 8) >> 16));
      var r3 := spi.Transfer(Low8((((r1 as Word << 8) | r2 as Word) << 8) >> 8));
      var r4 := spi.Transfer(Low8(((((r1 as Word << 8) | r2 as Word) << 8) | r3 as Word) << 8));
      config' := (((((r1 as Word << 8) | r2 as Word) << 8) | r3 as Word) << 8) | r4 as Word;
      ReadAssembly(r1, r2, r3, r4);
    }

    // -------------------------------------------------------------------------
    // GCONF

    /** get_GCONF: a read of register 0 into a zeroed word. With a zero read
        header the address byte is 0 and the word is assembled from the four
        bytes received; otherwise send2130 takes the write branch with mask 0,
        sends a zero word and the result stays 0. */
    method GetGconf() returns (data: Word)
      modifies spi`sent
      ensures READ == 0 ==>
        var k := |old(spi.sent)|;
        data == WordBE(spi.reply(k + 1), spi.reply(k + 2), spi.reply(k + 3), spi.reply(k + 4)) &&
        spi.sent == old(spi.sent) + [0, 0, 0, spi.reply(k + 2), 0]
      ensures READ != 0 ==> data == 0 && spi.sent == old(spi.sent) + Datagram(READ, 0)
    {
      data := 0;
      var _, d := Send2130(READ | REG_GCONF, data, 0, 0);
      data := d;
    }

    /** set_GCONF: a whole-register write; the shadow becomes the value. */
    method SetGconf(value: Word)
      modifies this`curGconf, spi`sent
      ensures curGconf == value
      ensures spi.sent == old(spi.sent) + Datagram(WRITE | REG_GCONF, value)
    {
      var _, c := Send2130(WRITE | REG_GCONF, curGconf, value, 0xFFFF_FFFF);
      curGconf := c;
      MergeFullAndEmptyMask(old(curGconf), value);
    }

    /** set_I_SCALE_ANALOG: bit 0 of GCONF, clamped to 1. */
    method SetIScaleAnalog(value: Byte)
      modifies this`valIScaleAnalog, this`curGconf, spi`sent
      ensures valIScaleAnalog == ClampMax8(value, 1)
      ensures curGconf == Merge(old(curGconf), valIScaleAnalog as Word, 0x1)
      ensures curGconf & 0x1 == valIScaleAnalog as Word
      ensures spi.sent == old(spi.sent) + Datagram(WRITE | REG_GCONF, curGconf)
    {
      var v := ClampMax8(value, 1);
      valIScaleAnalog := v;
      var _, c := Send2130(WRITE | REG_GCONF, curGconf, v as Word, 0x1);
      curGconf := c;
    }

    /** set_INTERNAL_R_SENSE: bit 1 of GCONF, clamped to 1. */
    method SetInternalRSense(value: Byte)
      modifies this`valInternalRSense, this`curGconf, spi`sent
      ensures valInternalRSense == ClampMax8(value, 1)
      ensures curGconf == Merge(old(curGconf), (valInternalRSense as Word) << 1, 0x2)
      ensures (curGconf >> 1) & 0x1 == valInternalRSense as Word
      ensures spi.sent == old(spi.sent) + Datagram(WRITE | REG_GCONF, curGconf)
    {
      var v := ClampMax8(value, 1);
      valInternalRSense := v;
      var _, c := Send2130(WRITE | REG_GCONF, curGconf, (v as Word) << 1, 0x2);
      curGconf := c;
    }

    /** set_EN_PWM_MODE: bit 2 of GCONF, clamped to 1. */
    method SetEnPwmMode(value: Byte)
      modifies this`valEnPwmMode, this`curGconf, spi`sent
      ensures valEnPwmMode == ClampMax8(value, 1)
      ensures curGconf == Merge(old(curGconf), (valEnPwmMode as Word) << 2, 0x4)
      ensures (curGconf >> 2) & 0x1 == valEnPwmMode as Word
      ensures spi.sent == old(spi.sent) + Datagram(WRITE | REG_GCONF, curGconf)
    {
      var v := ClampMax8(value, 1);
      valEnPwmMode := v;
      var _, c := Send2130(WRITE | REG_GCONF, curGconf, (v as Word) << 2, 0x4);
      curGconf := c;
    }

    /** set_ENC_COMMUTATION: bit 3 of GCONF, clamped to 1. */
    method SetEncCommutation(value: Byte)
      modifies this`valEncCommutation, this`curGconf, spi`sent
      ensures valEncCommutation == ClampMax8(value, 1)
      ensures curGconf == Merge(old(curGconf), (valEncCommutation as Word) << 3, 0x8)
      ensures (curGconf >> 3) & 0x1 == valEncCommutation as Word
      ensures spi.sent == old(spi.sent) + Datagram(WRITE | REG_GCONF, curGconf)
    {
      var v := ClampMax8(value, 1);
      valEncCommutation := v;
      var _, c := Send2130(WRITE | REG_GCONF, curGconf, (v as Word) << 3, 0x8);
      curGconf := c;
    }

    /** set_SHAFT: bit 4 of GCONF, clamped to 1. */
    method SetShaft(value: Byte)
      modifies this`valShaft, this`curGconf, spi`sent
      ensures valShaft == ClampMax8(value, 1)
      ensures curGconf == Merge(old(curGconf), (valShaft as Word) << 4, 0x10)
      ensures (curGconf >> 4) & 0x1 == valShaft as Word
      ensures spi.sent == old(spi.sent) + Datagram(WRITE | REG_GCONF, curGconf)
    {
      var v := ClampMax8(value, 1);
      valShaft := v;
      var _, c := Send2130(WRITE | REG_GCONF, curGconf, (v as Word) << 4, 0x10);
      curGconf := c;
    }

    /** set_DIAG0_ERROR: bit 5 of GCONF, clamped to 1. */
    method SetDiag0Error(value: Byte)
      modifies this`valDiag0Error, this`curGconf, spi`sent
      ensures valDiag0Error == ClampMax8(value, 1)
      ensures curGconf == Merge(old(curGconf), (valDiag0Error as Word) << 5, 0x20)
      ensures (curGconf >> 5) & 0x1 == valDiag0Error as Word
      ensures spi.sent == old(spi.sent) + Datagram(WRITE | REG_GCONF, curGconf)
    {
      var v := ClampMax8(value, 1);
      valDiag0Error := v;
      var _, c := Send2130(WRITE | REG_GCONF, curGconf, (v as Word) << 5, 0x20);
      curGconf := c;
    }

    /** set_DIAG0_OTPW: bit 6 of GCONF, clamped to 1. */
    method SetDiag0Otpw(value: Byte)
      modifies this`valDiag0Otpw, this`curGconf, spi`sent
      ensures valDiag0Otpw == ClampMax8(value, 1)
      ensures curGconf == Merge(old(curGconf), (valDiag0Otpw as Word) << 6, 0x40)
      ensures (curGconf >> 6) & 0x1 == valDiag0Otpw as Word
      ensures spi.sent == old(spi.sent) + Datagram(WRITE | REG_GCONF, curGconf)
    {
      var v := ClampMax8(value, 1);
      valDiag0Otpw := v;
      var _, c := Send2130(WRITE | REG_GCONF, curGconf, (v as Word) << 6, 0x40);
      curGconf := c;
    }

    /** set_DIAG0_STALL: bit 7 of GCONF, clamped to 1. */
    method SetDiag0Stall(value: Byte)
      modifies this`valDiag0Stall, this`curGconf, spi`sent
      ensures valDiag0Stall == ClampMax8(value, 1)
      ensures curGconf == Merge(old(curGconf), (valDiag0Stall as Word) << 7, 0x80)
      ensures (curGconf >> 7) & 0x1 == valDiag0Stall as Word
      ensures spi.sent == old(spi.sent) + Datagram(WRITE | REG_GCONF, curGconf)
    {
      var v := ClampMax8(value, 1);
      valDiag0Stall := v;
      var _, c := Send2130(WRITE | REG_GCONF, curGconf, (v as Word) << 7, 0x80);
      curGconf := c;
    }

    /** set_DIAG1_STALL: bit 8 of GCONF, clamped to 1. */
    method SetDiag1Stall(value: Byte)
      modifies this`valDiag1Stall, this`curGconf, spi`sent
      ensures valDiag1Stall == ClampMax8(value, 1)
      ensures curGconf == Merge(old(curGconf), (valDiag1Stall as Word) << 8, 0x100)
      ensures (curGconf >> 8) & 0x1 == valDiag1Stall as Word
      ensures spi.sent == old(spi.sent) + Datagram(WRITE | REG_GCONF, curGconf)
    {
      var v := ClampMax8(value, 1);
      valDiag1Stall := v;
      var _, c := Send2130(WRITE | REG_GCONF, curGconf, (v as Word) << 8, 0x100);
      curGconf := c;
    }

    /** set_DIAG1_INDEX: bit 9 of GCONF, clamped to 1. */
    method SetDiag1Index(value: Byte)
      modifies this`valDiag1Index, this`curGconf, spi`sent
      ensures valDiag1Index == ClampMax8(value, 1)
      ensures curGconf == Merge(old(curGconf), (valDiag1Index as Word) << 9, 0x200)
      ensures (curGconf >> 9) & 0x1 == valDiag1Index as Word
      ensures spi.sent == old(spi.sent) + Datagram(WRITE | REG_GCONF, curGconf)
    {
      var v := ClampMax8(value, 1);
      valDiag1Index := v;
      var _, c := Send2130(WRITE | REG_GCONF, curGconf, (v as Word) << 9, 0x200);
      curGconf := c;
    }

    /** set_DIAG1_ONSTATE: bit 10 of GCONF, clamped to 1. */
    method SetDiag1Onstate(value: Byte)
      modifies this`valDiag1Onstate, this`curGconf, spi`sent
      ensures valDiag1Onstate == ClampMax8(value, 1)
      ensures curGconf == Merge(old(curGconf), (valDiag1Onstate as Word) << 10, 0x400)
      ensures (curGconf >> 10) & 0x1 == valDiag1Onstate as Word
      ensures spi.sent == old(spi.sent) + Datagram(WRITE | REG_GCONF, curGconf)
    {
      var v := ClampMax8(value, 1);
      valDiag1Onstate := v;
      var _, c := Send2130(WRITE | REG_GCONF, curGconf, (v as Word) << 10, 0x400);
      curGconf := c;
    }

    /** set_DIAG1_STEPS_SKIPPED: bit 11 of GCONF, clamped to 1. */
    method SetDiag1StepsSkipped(value: Byte)
      modifies this`valDiag1StepsSkipped, this`curGconf, spi`sent
      ensures valDiag1StepsSkipped == ClampMax8(value, 1)
      ensures curGconf == Merge(old(curGconf), (valDiag1StepsSkipped as Word) << 11, 0x800)
      ensures (curGconf >> 11) & 0x1 == valDiag1StepsSkipped as Word
      ensures spi.sent == old(spi.sent) + Datagram(WRITE | REG_GCONF, curGconf)
    {
      var v := ClampMax8(value, 1);
      valDiag1StepsSkipped := v;
      var _, c := Send2130(WRITE | REG_GCONF, curGconf, (v as Word) << 11, 0x800);
      curGconf := c;
    }

    /** set_DIAG0_INT_PUSHPULL: bit 12 of GCONF, clamped to 1. */
    method SetDiag0IntPushpull(value: Byte)
      modifies this`valDiag0IntPushpull, this`curGconf, spi`sent
      ensures valDiag0IntPushpull == ClampMax8(value, 1)
      ensures curGconf == Merge(old(curGconf), (valDiag0IntPushpull as Word) << 12, 0x1000)
      ensures (curGconf >> 12) & 0x1 == valDiag0IntPushpull as Word
      ensures spi.sent == old(spi.sent) + Datagram(WRITE | REG_GCONF, curGconf)
    {
      var v := ClampMax8(value, 1);
      valDiag0IntPushpull := v;
      var _, c := Send2130(WRITE | REG_GCONF, curGconf, (v as Word) << 12, 0x1000);
      curGconf := c;
    }

    /** set_DIAG1_PUSHPULL: bit 13 of GCONF, clamped to 1. */
    method SetDiag1Pushpull(value: Byte)
      modifies this`valDiag1Pushpull, this`curGconf, spi`sent
      ensures valDiag1Pushpull == ClampMax8(value, 1)
      ensures curGconf == Merge(old(curGconf), (valDiag1Pushpull as Word) << 13, 0x2000)
      ensures (curGconf >> 13) & 0x1 == valDiag1Pushpull as Word
      ensures spi.sent == old(spi.sent) + Datagram(WRITE | REG_GCONF, curGconf)
    {
      var v := ClampMax8(value, 1);
      valDiag1Pushpull := v;
      var _, c := Send2130(WRITE | REG_GCONF, curGconf, (v as Word) << 13, 0x2000);
      curGconf := c;
    }

    /** set_SMALL_HYSTERISIS: bit 14 of GCONF, clamped to 1. */
    method SetSmallHysterisis(value: Byte)
      modifies this`valSmallHysterisis, this`curGconf, spi`sent
      ensures valSmallHysterisis == ClampMax8(value, 1)
      ensures curGconf == Merge(old(curGconf), (valSmallHysterisis as Word) << 14, 0x4000)
      ensures (curGconf >> 14) & 0x1 == valSmallHysterisis as Word
      ensures spi.sent == old(spi.sent) + Datagram(WRITE | REG_GCONF, curGconf)
    {
      var v := ClampMax8(value, 1);
      valSmallHysterisis := v;
      var _, c := Send2130(WRITE | REG_GCONF, curGconf, (v as Word) << 14, 0x4000);
      curGconf := c;
    }

    /** set_STOP_ENABLE: bit 15 of GCONF, clamped to 1. */
    method SetStopEnable(value: Byte)
      modifies this`valStopEnable, this`curGconf, spi`sent
      ensures valStopEnable == ClampMax8(value, 1)
      ensures curGconf == Merge(old(curGconf), (valStopEnable as Word) << 15, 0x8000)
      ensures (curGconf >> 15) & 0x1 == valStopEnable as Word
      ensures spi.sent == old(spi.sent) + Datagram(WRITE | REG_GCONF, curGconf)
    {
      var v := ClampMax8(value, 1);
      valStopEnable := v;
      var _, c := Send2130(WRITE | REG_GCONF, curGconf, (v as Word) << 15, 0x8000);
      curGconf := c;
    }

    /** set_DIRECT_MODE: bit 16 of GCONF, clamped to 1. */
    method SetDirectMode(value: Byte)
      modifies this`valDirectMode, this`curGconf, spi`sent
      ensures valDirectMode == ClampMax8(value, 1)
      ensures curGconf == Merge(old(curGconf), (valDirectMode as Word) << 16, 0x10000)
      ensures (curGconf >> 16) & 0x1 == valDirectMode as Word
      ensures spi.sent == old(spi.sent) + Datagram(WRITE | REG_GCONF, curGconf)
    {
      var v := ClampMax8(value, 1);
      valDirectMode := v;
      var _, c := Send2130(WRITE | REG_GCONF, curGconf, (v as Word) << 16, 0x10000);
      curGconf := c;
    }

    // IHOLD_IRUN, TPOWERDOWN, TSTEP and the velocity thresholds

    /** set_IHOLD: the standstill current, clamped to 31, in bits 0-4. */
    method SetIhold(value: Byte)
      modifies this`valIhold, this`curIholdIrun, spi`sent
      ensures valIhold == ClampMax8(value, 31)
      ensures curIholdIrun == Merge(old(curIholdIrun), valIhold as Word, 0x1F)
      ensures curIholdIrun & 0x1F == valIhold as Word
      ensures spi.sent == old(spi.sent) + Datagram(WRITE | REG_IHOLD_IRUN, curIholdIrun)
    {
      var v := ClampMax8(value, 31);
      valIhold := v;
      var _, c := Send2130(WRITE | REG_IHOLD_IRUN, curIholdIrun, v as Word, 0x1F);
      curIholdIrun := c;
    }

    /** set_IRUN: the run current, clamped to 31, in bits 8-12. */
    method SetIrun(value: Byte)
      modifies this`valIrun, this`curIholdIrun, spi`sent
      ensures valIrun == ClampMax8(value, 31)
      ensures curIholdIrun == Merge(old(curIholdIrun), (valIrun as Word) << 8, 0x1F00)
      ensures (curIholdIrun >> 8) & 0x1F == valIrun as Word
      ensures spi.sent == old(spi.sent) + Datagram(WRITE | REG_IHOLD_IRUN, curIholdIrun)
    {
      var v := ClampMax8(value, 31);
      valIrun := v;
      var _, c := Send2130(WRITE | REG_IHOLD_IRUN, curIholdIrun, (v as Word) << 8, 0x1F00);
      curIholdIrun := c;
    }

    /** set_IHOLD_DELAY: clamped to 15 and shifted to bit 16, but merged under
        the mask 0xF000; the merge clears bits 12-15 and leaves the delay
        field, bits 16-19, as it was. */
    method SetIholdDelay(value: Byte)
      modifies this`valIholdDelay, this`curIholdIrun, spi`sent
      ensures valIholdDelay == ClampMax8(value, 15)
      ensures curIholdIrun == Merge(old(curIholdIrun), (valIholdDelay as Word) << 16, 0xF000)
      ensures curIholdIrun == old(curIholdIrun) & !0xF000
      ensures spi.sent == old(spi.sent) + Datagram(WRITE | REG_IHOLD_IRUN, curIholdIrun)
    {
      var v := ClampMax8(value, 15);
      valIholdDelay := v;
      var _, c := Send2130(WRITE | REG_IHOLD_IRUN, curIholdIrun, (v as Word) << 16, 0xF000);
      curIholdIrun := c;
      IholdDelayClearsOnly(old(curIholdIrun), v);
    }

    /** set_TPOWERDOWN: the whole byte, unclamped, in bits 0-7. */
    method SetTpowerdown(value: Byte)
      modifies this`valTpowerdown, this`curTpowerdown, spi`sent
      ensures valTpowerdown == value
      ensures curTpowerdown == Merge(old(curTpowerdown), valTpowerdown as Word, 0xFF)
      ensures curTpowerdown & 0xFF == valTpowerdown as Word
      ensures spi.sent == old(spi.sent) + Datagram(WRITE | REG_TPOWERDOWN, curTpowerdown)
    {
      var v := value;
      valTpowerdown := v;
      var _, c := Send2130(WRITE | REG_TPOWERDOWN, curTpowerdown, v as Word, 0xFF);
      curTpowerdown := c;
    }

    /** get_TSTEP: a read of register 0x12 into a zeroed word. The address
        byte is nonzero, so send2130 takes the write branch with mask 0: it
        sends a zero word and the result is 0. */
    method GetTstep() returns (data: Word)
      modifies spi`sent
      ensures data == 0
      ensures spi.sent == old(spi.sent) + Datagram(READ | REG_TSTEP, 0)
    {
      data := 0;
      var _, d := Send2130(READ | REG_TSTEP, data, 0, 0);
      data := d;
    }

    /** set_TPWMTHRS: a 20-bit threshold, clamped to 1048575. */
    method SetTpwmthrs(value: Word)
      modifies this`valTpwmthrs, this`curTpwmthrs, spi`sent
      ensures valTpwmthrs == ClampMax32(value, 0xF_FFFF)
      ensures curTpwmthrs == Merge(old(curTpwmthrs), valTpwmthrs as Word, 0xFFFFF)
      ensures curTpwmthrs & 0xFFFFF == valTpwmthrs
      ensures spi.sent == old(spi.sent) + Datagram(WRITE | REG_TPWMTHRS, curTpwmthrs)
    {
      var v := ClampMax32(value, 0xF_FFFF);
      valTpwmthrs := v;
      var _, c := Send2130(WRITE | REG_TPWMTHRS, curTpwmthrs, v as Word, 0xFFFFF);
      curTpwmthrs := c;
    }

    /** set_TCOOLTHRS: a 20-bit threshold, clamped to 1048575. */
    method SetTcoolthrs(value: Word)
      modifies this`valTcoolthrs, this`curTcoolthrs, spi`sent
      ensures valTcoolthrs == ClampMax32(value, 0xF_FFFF)
      ensures curTcoolthrs == Merge(old(curTcoolthrs), valTcoolthrs as Word, 0xFFFFF)
      ensures curTcoolthrs & 0xFFFFF == valTcoolthrs
      ensures spi.sent == old(spi.sent) + Datagram(WRITE | REG_TCOOLTHRS, curTcoolthrs)
    {
      var v := ClampMax32(value, 0xF_FFFF);
      valTcoolthrs := v;
      var _, c := Send2130(WRITE | REG_TCOOLTHRS, curTcoolthrs, v as Word, 0xFFFFF);
      curTcoolthrs := c;
    }

    /** set_THIGH: a 20-bit threshold, clamped to 1048575. */
    method SetThigh(value: Word)
      modifies this`valThigh, this`curThigh, spi`sent
      ensures valThigh == ClampMax32(value, 0xF_FFFF)
      ensures curThigh == Merge(old(curThigh), valThigh as Word, 0xFFFFF)
      ensures curThigh & 0xFFFFF == valThigh
      ensures spi.sent == old(spi.sent) + Datagram(WRITE | REG_THIGH, curThigh)
    {
      var v := ClampMax32(value, 0xF_FFFF);
      valThigh := v;
      var _, c := Send2130(WRITE | REG_THIGH, curThigh, v as Word, 0xFFFFF);
      curThigh := c;
    }

    /** set_XDIRECT_A: coil A's current, clamped to -255..255, converted to
        uint32_t and merged into bits 0-8 as a 9-bit two's complement number. */
    method SetXdirectA(value: Int16)
      modifies this`valXdirectA, this`curXdirect, spi`sent
      ensures valXdirectA == ClampXdirect(value)
      ensures curXdirect == Merge(old(curXdirect), SExt16(valXdirectA), 0x1FF)
      ensures Signed9(curXdirect & 0x1FF) == valXdirectA
      ensures spi.sent == old(spi.sent) + Datagram(WRITE | REG_XDIRECT, curXdirect)
    {
      var v := ClampXdirect(value);
      valXdirectA := v;
      var _, c := Send2130(WRITE | REG_XDIRECT, curXdirect, SExt16(v), 0x1FF);
      curXdirect := c;
      XdirectRoundTrip(v);
    }

    /** set_XDIRECT_B: coil B's current, clamped to -255..255, converted to
        uint32_t, shifted by 16 and merged into bits 16-24. */
    method SetXdirectB(value: Int16)
      modifies this`valXdirectB, this`curXdirect, spi`sent
      ensures valXdirectB == ClampXdirect(value)
      ensures curXdirect == Merge(old(curXdirect), SExt16(valXdirectB) << 16, 0x1FF_0000)
      ensures Signed9((curXdirect & 0x1FF_0000) >> 16) == valXdirectB
      ensures spi.sent == old(spi.sent) + Datagram(WRITE | REG_XDIRECT, curXdirect)
    {
      var v := ClampXdirect(value);
      valXdirectB := v;
      var _, c := Send2130(WRITE | REG_XDIRECT, curXdirect, SExt16(v) << 16, 0x1FF_0000);
      curXdirect := c;
      XdirectRoundTrip(v);
    }

    /** set_VDCMIN: a 24-bit velocity, clamped to 16777215. */
    method SetVdcmin(value: Word)
      modifies this`valVdcmin, this`curVdcmin, spi`sent
      ensures valVdcmin == ClampMax32(value, 0xFF_FFFF)
      ensures curVdcmin == Merge(old(curVdcmin), valVdcmin as Word, 0xFFFFFF)
      ensures curVdcmin & 0xFFFFFF == valVdcmin
      ensures spi.sent == old(spi.sent) + Datagram(WRITE | REG_VDCMIN, curVdcmin)
    {
      var v := ClampMax32(value, 0xFF_FFFF);
      valVdcmin := v;
      var _, c := Send2130(WRITE | REG_VDCMIN, curVdcmin, v as Word, 0xFFFFFF);
      curVdcmin := c;
    }

    // -------------------------------------------------------------------------
    // CHOPCONF

    /** get_CHOPCONF: a read of register 0x6C into a zeroed word; the nonzero
        address byte sends it down the write branch with mask 0, so the result
        is 0. */
    method GetChopconf() returns (data: Word)
      modifies spi`sent
      ensures data == 0
      ensures spi.sent == old(spi.sent) + Datagram(READ | REG_CHOPCONF, 0)
    {
      data := 0;
      var _, d := Send2130(READ | REG_CHOPCONF, data, 0, 0);
      data := d;
    }

    /** set_CHOPCONF: a whole-register write; the shadow becomes the value. */
    method SetChopconf(value: Word)
      modifies this`curChopconf, spi`sent
      ensures curChopconf == value
      ensures spi.sent == old(spi.sent) + Datagram(WRITE | REG_CHOPCONF, value)
    {
      var _, c := Send2130(WRITE | REG_CHOPCONF, curChopconf, value, 0xFFFF_FFFF);
      curChopconf := c;
      MergeFullAndEmptyMask(old(curChopconf), value);
    }

    /** set_TOFF: the off time, clamped to 15, in bits 0-3. */
    method SetToff(value: Byte)
      modifies this`valToff, this`curChopconf, spi`sent
      ensures valToff == ClampMax8(value, 15)
      ensures curChopconf == Merge(old(curChopconf), valToff as Word, 0xF)
      ensures curChopconf & 0xF == valToff as Word
      ensures spi.sent == old(spi.sent) + Datagram(WRITE | REG_CHOPCONF, curChopconf)
    {
      var v := ClampMax8(value, 15);
      valToff := v;
      var _, c := Send2130(WRITE | REG_CHOPCONF, curChopconf, v as Word, 0xF);
      curChopconf := c;
    }

    /** set_HSTRT: only in spreadCycle mode (chm 0); the hysteresis start is
        clamped to 1..8 and stored minus one in bits 4-6. In the other mode
        nothing changes and nothing is sent. */
    method SetHstrt(value: Byte)
      modifies this`valHstrt, this`curChopconf, spi`sent
      ensures valChm == 0 ==>
        valHstrt == ClampRange8(value, 1, 8) &&
        curChopconf == Merge(old(curChopconf), HstrtBits(valHstrt), 0x70) &&
        HstrtOf(curChopconf) == valHstrt &&
        spi.sent == old(spi.sent) + Datagram(WRITE | REG_CHOPCONF, curChopconf)
      ensures valChm != 0 ==> valHstrt == old(valHstrt) && curChopconf == old(curChopconf) && spi.sent == old(spi.sent)
    {
      if valChm == 0 {
        var v := ClampRange8(value, 1, 8);
        valHstrt := v;
        var _, c := Send2130(WRITE | REG_CHOPCONF, curChopconf, HstrtBits(v), 0x70);
        curChopconf := c;
        HstrtRoundTrip(old(curChopconf), v);
      }
    }

    /** set_TFD: only in constant off time mode (chm 1); the fast decay time
        is clamped to 15, spread over a uint8_t so that its bit 3 lands in
        bit 11 and bits 0-2 in bits 4-6. In the other mode nothing changes. */
    method SetTfd(value: Byte)
      modifies this`valTfd, this`curChopconf, spi`sent
      ensures valChm == 1 ==>
        valTfd == ClampMax8(value, 15) &&
        curChopconf == Merge(old(curChopconf), (TfdSpread(valTfd) as Word) << 4, 0x870) &&
        TfdOf(curChopconf) == valTfd &&
        spi.sent == old(spi.sent) + Datagram(WRITE | REG_CHOPCONF, curChopconf)
      ensures valChm != 1 ==> valTfd == old(valTfd) && curChopconf == old(curChopconf) && spi.sent == old(spi.sent)
    {
      if valChm == 1 {
        var v := ClampMax8(value, 15);
        valTfd := v;
        var spread := TfdSpread(v);
        var _, c := Send2130(WRITE | REG_CHOPCONF, curChopconf, (spread as Word) << 4, 0x870);
        curChopconf := c;
        TfdRoundTrip(old(curChopconf), v);
      }
    }

    /** set_HEND: only in spreadCycle mode (chm 0); the hysteresis end is
        clamped to -3..12 and stored plus 3 in bits 7-10. */
    method SetHend(value: Int8)
      modifies this`valHend, this`curChopconf, spi`sent
      ensures valChm == 0 ==>
        valHend == ClampSigned8(value, 0xFD, 0x0C) &&
        curChopconf == Merge(old(curChopconf), HendBits(valHend), 0x780) &&
        HendOf(curChopconf) == valHend &&
        spi.sent == old(spi.sent) + Datagram(WRITE | REG_CHOPCONF, curChopconf)
      ensures valChm != 0 ==> valHend == old(valHend) && curChopconf == old(curChopconf) && spi.sent == old(spi.sent)
    {
      if valChm == 0 {
        var v := ClampSigned8(value, 0xFD, 0x0C);
        valHend := v;
        var _, c := Send2130(WRITE | REG_CHOPCONF, curChopconf, HendBits(v), 0x780);
        curChopconf := c;
        HendRoundTrip(old(curChopconf), v);
      }
    }

    /** set_OFFSET: only in constant off time mode (chm 1); the sine wave
        offset shares bits 7-10 with the hysteresis end, is clamped and biased
        the same way, and is cached in valHend, not valOffset. */
    method SetOffset(value: Int8)
      modifies this`valHend, this`curChopconf, spi`sent
      ensures valChm == 1 ==>
        valHend == ClampSigned8(value, 0xFD, 0x0C) &&
        curChopconf == Merge(old(curChopconf), HendBits(valHend), 0x780) &&
        HendOf(curChopconf) == valHend &&
        spi.sent == old(spi.sent) + Datagram(WRITE | REG_CHOPCONF, curChopconf)
      ensures valChm != 1 ==> valHend == old(valHend) && curChopconf == old(curChopconf) && spi.sent == old(spi.sent)
    {
      if valChm == 1 {
        var v := ClampSigned8(value, 0xFD, 0x0C);
        valHend := v;
        var _, c := Send2130(WRITE | REG_CHOPCONF, curChopconf, HendBits(v), 0x780);
        curChopconf := c;
        HendRoundTrip(old(curChopconf), v);
      }
    }

    /** set_DISFDCC: only in constant off time mode (chm 1); bit 12 of
        CHOPCONF, clamped to 1. In the other mode nothing changes. */
    method SetDisfdcc(value: Byte)
      modifies this`valDisfdcc, this`curChopconf, spi`sent
      ensures valChm == 1 ==> valDisfdcc == ClampMax8(value, 1)
      ensures valChm == 1 ==> curChopconf == Merge(old(curChopconf), (valDisfdcc as Word) << 12, 0x1000)
      ensures valChm == 1 ==> (curChopconf >> 12) & 0x1 == valDisfdcc as Word
      ensures valChm == 1 ==> spi.sent == old(spi.sent) + Datagram(WRITE | REG_CHOPCONF, curChopconf)
      ensures valChm != 1 ==> valDisfdcc == old(valDisfdcc) && curChopconf == old(curChopconf) && spi.sent == old(spi.sent)
    {
      if valChm == 1 {
        var v := ClampMax8(value, 1);
        valDisfdcc := v;
        var _, c := Send2130(WRITE | REG_CHOPCONF, curChopconf, (v as Word) << 12, 0x1000);
        curChopconf := c;
      }
    }

    /** set_rndtf: bit 13 of CHOPCONF, clamped to 1. */
    method SetRndtf(value: Byte)
      modifies this`valRndtf, this`curChopconf, spi`sent
      ensures valRndtf == ClampMax8(value, 1)
      ensures curChopconf == Merge(old(curChopconf), (valRndtf as Word) << 13, 0x2000)
      ensures (curChopconf >> 13) & 0x1 == valRndtf as Word
      ensures spi.sent == old(spi.sent) + Datagram(WRITE | REG_CHOPCONF, curChopconf)
    {
      var v := ClampMax8(value, 1);
      valRndtf := v;
      var _, c := Send2130(WRITE | REG_CHOPCONF, curChopconf, (v as Word) << 13, 0x2000);
      curChopconf := c;
    }

    /** set_CHM: bit 14 of CHOPCONF, clamped to 1. */
    method SetChm(value: Byte)
      modifies this`valChm, this`curChopconf, spi`sent
      ensures valChm == ClampMax8(value, 1)
      ensures curChopconf == Merge(old(curChopconf), (valChm as Word) << 14, 0x4000)
      ensures (curChopconf >> 14) & 0x1 == valChm as Word
      ensures spi.sent == old(spi.sent) + Datagram(WRITE | REG_CHOPCONF, curChopconf)
    {
      var v := ClampMax8(value, 1);
      valChm := v;
      var _, c := Send2130(WRITE | REG_CHOPCONF, curChopconf, (v as Word) << 14, 0x4000);
      curChopconf := c;
    }

    /** set_TBL: the blank time is raised to at least 16 and quantised to the
        largest of 54, 36, 24, 16 at most it; the time itself, not its index,
        is shifted into the 2-bit field at bits 15-16, so only 54 leaves a
        nonzero code there. */
    method SetTbl(value: Byte)
      modifies this`valTbl, this`curChopconf, spi`sent
      ensures LargestMember(TblValid, Floor(TblValid, value) as bv16, valTbl)
      ensures curChopconf == Merge(old(curChopconf), (valTbl as Word) << 15, 0x18000)
      ensures curChopconf & 0x18000 == if valTbl == 54 then 0x10000 else 0
      ensures spi.sent == old(spi.sent) + Datagram(WRITE | REG_CHOPCONF, curChopconf)
    {
      TblDescending();
      var v := Quantize(TblValid, value);
      TblSetting(value, v);
      TblPacking(v);
      valTbl := v;
      var _, c := Send2130(WRITE | REG_CHOPCONF, curChopconf, (v as Word) << 15, 0x18000);
      curChopconf := c;
    }

    /** set_VSENSE: bit 17 of CHOPCONF, clamped to 1. */
    method SetVsense(value: Byte)
      modifies this`valVsense, this`curChopconf, spi`sent
      ensures valVsense == ClampMax8(value, 1)
      ensures curChopconf == Merge(old(curChopconf), (valVsense as Word) << 17, 0x20000)
      ensures (curChopconf >> 17) & 0x1 == valVsense as Word
      ensures spi.sent == old(spi.sent) + Datagram(WRITE | REG_CHOPCONF, curChopconf)
    {
      var v := ClampMax8(value, 1);
      valVsense := v;
      var _, c := Send2130(WRITE | REG_CHOPCONF, curChopconf, (v as Word) << 17, 0x20000);
      curChopconf := c;
    }

    /** set_VHIGHFS: bit 18 of CHOPCONF, clamped to 1. */
    method SetVhighfs(value: Byte)
      modifies this`valVhighfs, this`curChopconf, spi`sent
      ensures valVhighfs == ClampMax8(value, 1)
      ensures curChopconf == Merge(old(curChopconf), (valVhighfs as Word) << 18, 0x40000)
      ensures (curChopconf >> 18) & 0x1 == valVhighfs as Word
      ensures spi.sent == old(spi.sent) + Datagram(WRITE | REG_CHOPCONF, curChopconf)
    {
      var v := ClampMax8(value, 1);
      valVhighfs := v;
      var _, c := Send2130(WRITE | REG_CHOPCONF, curChopconf, (v as Word) << 18, 0x40000);
      curChopconf := c;
    }

    /** set_VHIGHCHM: bit 19 of CHOPCONF, clamped to 1. */
    method SetVhighchm(value: Byte)
      modifies this`valVhighchm, this`curChopconf, spi`sent
      ensures valVhighchm == ClampMax8(value, 1)
      ensures curChopconf == Merge(old(curChopconf), (valVhighchm as Word) << 19, 0x80000)
      ensures (curChopconf >> 19) & 0x1 == valVhighchm as Word
      ensures spi.sent == old(spi.sent) + Datagram(WRITE | REG_CHOPCONF, curChopconf)
    {
      var v := ClampMax8(value, 1);
      valVhighchm := v;
      var _, c := Send2130(WRITE | REG_CHOPCONF, curChopconf, (v as Word) << 19, 0x80000);
      curChopconf := c;
    }

    /** set_SYNC: the chopper clock divider, clamped to 15, in bits 20-23. */
    method SetSync(value: Byte)
      modifies this`valSync, this`curChopconf, spi`sent
      ensures valSync == ClampMax8(value, 15)
      ensures curChopconf == Merge(old(curChopconf), (valSync as Word) << 20, 0xF00000)
      ensures (curChopconf >> 20) & 0xF == valSync as Word
      ensures spi.sent == old(spi.sent) + Datagram(WRITE | REG_CHOPCONF, curChopconf)
    {
      var v := ClampMax8(value, 15);
      valSync := v;
      var _, c := Send2130(WRITE | REG_CHOPCONF, curChopconf, (v as Word) << 20, 0xF00000);
      curChopconf := c;
    }

    /** set_MRES: the microstep resolution is the first, so the largest, table
        member at most the input, and its index is written to bits 24-27. The
        member 256 exceeds every uint8_t input, so the match is found at index
        1 or later and always fits the uint8_t cache. */
    method SetMres(value: Byte)
      modifies this`valMres, this`curChopconf, spi`sent
      ensures exists k :: MresSetting(value, valMres, k) && curChopconf == Merge(old(curChopconf), (k as Word) << 24, 0xF00_0000)
      ensures spi.sent == old(spi.sent) + Datagram(WRITE | REG_CHOPCONF, curChopconf)
    {
      var i := 0;
      while i < 9
        invariant 0 <= i <= 8
        invariant forall j :: 0 <= j < i ==> value as bv16 < MresValid[j]
        invariant valMres == old(valMres) && curChopconf == old(curChopconf) && spi.sent == old(spi.sent)
      {
        if value as bv16 >= MresValid[i] {
          valMres := Low8Of16(MresValid[i]);
          var _, c := Send2130(WRITE | REG_CHOPCONF, curChopconf, MresCode[i] << 24, 0xF00_0000);
          curChopconf := c;
          MresMatch(value, i);
          assert MresSetting(value, valMres, i);
          assert curChopconf == Merge(old(curChopconf), (i as Word) << 24, 0xF00_0000);
          return;
        }
        i := i + 1;
      }
      assert false;
    }

    /** set_INTPOL: bit 28 of CHOPCONF, clamped to 1. */
    method SetIntpol(value: Byte)
      modifies this`valIntpol, this`curChopconf, spi`sent
      ensures valIntpol == ClampMax8(value, 1)
      ensures curChopconf == Merge(old(curChopconf), (valIntpol as Word) << 28, 0x10000000)
      ensures (curChopconf >> 28) & 0x1 == valIntpol as Word
      ensures spi.sent == old(spi.sent) + Datagram(WRITE | REG_CHOPCONF, curChopconf)
    {
      var v := ClampMax8(value, 1);
      valIntpol := v;
      var _, c := Send2130(WRITE | REG_CHOPCONF, curChopconf, (v as Word) << 28, 0x10000000);
      curChopconf := c;
    }

    /** set_DEDGE: bit 29 of CHOPCONF, clamped to 1. */
    method SetDedge(value: Byte)
      modifies this`valDedge, this`curChopconf, spi`sent
      ensures valDedge == ClampMax8(value, 1)
      ensures curChopconf == Merge(old(curChopconf), (valDedge as Word) << 29, 0x20000000)
      ensures (curChopconf >> 29) & 0x1 == valDedge as Word
      ensures spi.sent == old(spi.sent) + Datagram(WRITE | REG_CHOPCONF, curChopconf)
    {
      var v := ClampMax8(value, 1);
      valDedge := v;
      var _, c := Send2130(WRITE | REG_CHOPCONF, curChopconf, (v as Word) << 29, 0x20000000);
      curChopconf := c;
    }

    /** set_DISS2G: bit 30 of CHOPCONF, clamped to 1. */
    method SetDiss2g(value: Byte)
      modifies this`valDiss2g, this`curChopconf, spi`sent
      ensures valDiss2g == ClampMax8(value, 1)
      ensures curChopconf == Merge(old(curChopconf), (valDiss2g as Word) << 30, 0x40000000)
      ensures (curChopconf >> 30) & 0x1 == valDiss2g as Word
      ensures spi.sent == old(spi.sent) + Datagram(WRITE | REG_CHOPCONF, curChopconf)
    {
      var v := ClampMax8(value, 1);
      valDiss2g := v;
      var _, c := Send2130(WRITE | REG_CHOPCONF, curChopconf, (v as Word) << 30, 0x40000000);
      curChopconf := c;
    }

    // -------------------------------------------------------------------------
    // COOLCONF, and the stallGuard fields written to the CHOPCONF shadow

    /** set_COOLCONF: a whole-register write; the shadow becomes the value. */
    method SetCoolconf(value: Word)
      modifies this`curCoolconf, spi`sent
      ensures curCoolconf == value
      ensures spi.sent == old(spi.sent) + Datagram(WRITE | REG_COOLCONF, value)
    {
      var _, c := Send2130(WRITE | REG_COOLCONF, curCoolconf, value, 0xFFFF_FFFF);
      curCoolconf := c;
      MergeFullAndEmptyMask(old(curCoolconf), value);
    }

    /** set_SEMIN: the lower stallGuard threshold, clamped to 15, in bits 0-3. */
    method SetSemin(value: Byte)
      modifies this`valSemin, this`curCoolconf, spi`sent
      ensures valSemin == ClampMax8(value, 15)
      ensures curCoolconf == Merge(old(curCoolconf), valSemin as Word, 0xF)
      ensures curCoolconf & 0xF == valSemin as Word
      ensures spi.sent == old(spi.sent) + Datagram(WRITE | REG_COOLCONF, curCoolconf)
    {
      var v := ClampMax8(value, 15);
      valSemin := v;
      var _, c := Send2130(WRITE | REG_COOLCONF, curCoolconf, v as Word, 0xF);
      curCoolconf := c;
    }

    /** set_SEUP: the current increment step is raised to at least 1 and
        quantised to the largest of 8, 4, 2, 1 at most it; the step itself is
        shifted into the 2-bit field at bits 5-6, so 4 and 8 leave code 0. */
    method SetSeup(value: Byte)
      modifies this`valSeup, this`curCoolconf, spi`sent
      ensures LargestMember(SeupValid, Floor(SeupValid, value) as bv16, valSeup)
      ensures curCoolconf == Merge(old(curCoolconf), (valSeup as Word) << 5, 0x60)
      ensures curCoolconf & 0x60 == if valSeup <= 2 then (valSeup as Word) << 5 else 0
      ensures spi.sent == old(spi.sent) + Datagram(WRITE | REG_COOLCONF, curCoolconf)
    {
      SeupDescending();
      var v := Quantize(SeupValid, value);
      SeupSetting(value, v);
      SeupPacking(v);
      valSeup := v;
      var _, c := Send2130(WRITE | REG_COOLCONF, curCoolconf, (v as Word) << 5, 0x60);
      curCoolconf := c;
    }

    /** set_SEMAX: clamped to 15 and merged into bits 8-11, but cached in
        valSemin, not valSemax. */
    method SetSemax(value: Byte)
      modifies this`valSemin, this`curCoolconf, spi`sent
      ensures valSemin == ClampMax8(value, 15)
      ensures curCoolconf == Merge(old(curCoolconf), (valSemin as Word) << 8, 0xF00)
      ensures (curCoolconf >> 8) & 0xF == valSemin as Word
      ensures spi.sent == old(spi.sent) + Datagram(WRITE | REG_COOLCONF, curCoolconf)
    {
      var v := ClampMax8(value, 15);
      valSemin := v;
      var _, c := Send2130(WRITE | REG_COOLCONF, curCoolconf, (v as Word) << 8, 0xF00);
      curCoolconf := c;
    }

    /** set_SEDN: the decrement step count is raised to at least 1 and
        quantised to the largest of 32, 8, 2, 1 at most it; the count itself
        is shifted into the 2-bit field at bits 13-14, so 8 and 32 leave
        code 0. */
    method SetSedn(value: Byte)
      modifies this`valSedn, this`curCoolconf, spi`sent
      ensures LargestMember(SednValid, Floor(SednValid, value) as bv16, valSedn)
      ensures curCoolconf == Merge(old(curCoolconf), (valSedn as Word) << 13, 0x6000)
      ensures curCoolconf & 0x6000 == if valSedn <= 2 then (valSedn as Word) << 13 else 0
      ensures spi.sent == old(spi.sent) + Datagram(WRITE | REG_COOLCONF, curCoolconf)
    {
      SednDescending();
      var v := Quantize(SednValid, value);
      SednSetting(value, v);
      SednPacking(v);
      valSedn := v;
      var _, c := Send2130(WRITE | REG_COOLCONF, curCoolconf, (v as Word) << 13, 0x6000);
      curCoolconf := c;
    }

    /** set_SEIMIN: clamped to 1 and merged into bit 15 of the CHOPCONF
        shadow and sent to CHOPCONF, although it is one of the COOLCONF
        fields. */
    method SetSeimin(value: Byte)
      modifies this`valSeimin, this`curChopconf, spi`sent
      ensures valSeimin == ClampMax8(value, 1)
      ensures curChopconf == Merge(old(curChopconf), (valSeimin as Word) << 15, 0x8000)
      ensures (curChopconf >> 15) & 0x1 == valSeimin as Word
      ensures spi.sent == old(spi.sent) + Datagram(WRITE | REG_CHOPCONF, curChopconf)
    {
      var v := ClampMax8(value, 1);
      valSeimin := v;
      var _, c := Send2130(WRITE | REG_CHOPCONF, curChopconf, (v as Word) << 15, 0x8000);
      curChopconf := c;
    }

    /** set_SGT: the stallGuard2 threshold is clamped to -64..63, converted to
        uint32_t, biased by 64 and merged into bits 16-22 of the CHOPCONF
        shadow, although it is one of the COOLCONF fields. */
    method SetSgt(value: Int8)
      modifies this`valSgt, this`curChopconf, spi`sent
      ensures valSgt == ClampSigned8(value, 0xC0, 0x3F)
      ensures curChopconf == Merge(old(curChopconf), SgtBits(valSgt), 0x7F_0000)
      ensures SgtOf(curChopconf) == valSgt
      ensures spi.sent == old(spi.sent) + Datagram(WRITE | REG_CHOPCONF, curChopconf)
    {
      var v := ClampSigned8(value, 0xC0, 0x3F);
      valSgt := v;
      var _, c := Send2130(WRITE | REG_CHOPCONF, curChopconf, SgtBits(v), 0x7F_0000);
      curChopconf := c;
      SgtRoundTrip(old(curChopconf), v);
    }

    /** set_SFILT: clamped to 1 and merged into bit 24 of the CHOPCONF
        shadow and sent to CHOPCONF, although it is one of the COOLCONF
        fields. */
    method SetSfilt(value: Byte)
      modifies this`valSfilt, this`curChopconf, spi`sent
      ensures valSfilt == ClampMax8(value, 1)
      ensures curChopconf == Merge(old(curChopconf), (valSfilt as Word) << 24, 0x1000000)
      ensures (curChopconf >> 24) & 0x1 == valSfilt as Word
      ensures spi.sent == old(spi.sent) + Datagram(WRITE | REG_CHOPCONF, curChopconf)
    {
      var v := ClampMax8(value, 1);
      valSfilt := v;
      var _, c := Send2130(WRITE | REG_CHOPCONF, curChopconf, (v as Word) << 24, 0x1000000);
      curChopconf := c;
    }

    // -------------------------------------------------------------------------
    // PWMCONF

    /** set_PWMCONF: a whole-register write; the shadow becomes the value. */
    method SetPwmconf(value: Word)
      modifies this`curPwmconf, spi`sent
      ensures curPwmconf == value
      ensures spi.sent == old(spi.sent) + Datagram(WRITE | REG_PWMCONF, value)
    {
      var _, c := Send2130(WRITE | REG_PWMCONF, curPwmconf, value, 0xFFFF_FFFF);
      curPwmconf := c;
      MergeFullAndEmptyMask(old(curPwmconf), value);
    }

    /** set_PWM_AMPL: the whole byte, unclamped, in bits 0-7. */
    method SetPwmAmpl(value: Byte)
      modifies this`valPwmAmpl, this`curPwmconf, spi`sent
      ensures valPwmAmpl == value
      ensures curPwmconf == Merge(old(curPwmconf), valPwmAmpl as Word, 0xFF)
      ensures curPwmconf & 0xFF == valPwmAmpl as Word
      ensures spi.sent == old(spi.sent) + Datagram(WRITE | REG_PWMCONF, curPwmconf)
    {
      var v := value;
      valPwmAmpl := v;
      var _, c := Send2130(WRITE | REG_PWMCONF, curPwmconf, v as Word, 0xFF);
      curPwmconf := c;
    }

    /** set_PWM_GRAD: the whole byte, unclamped, in bits 8-15. */
    method SetPwmGrad(value: Byte)
      modifies this`valPwmGrad, this`curPwmconf, spi`sent
      ensures valPwmGrad == value
      ensures curPwmconf == Merge(old(curPwmconf), (valPwmGrad as Word) << 8, 0xFF00)
      ensures (curPwmconf >> 8) & 0xFF == valPwmGrad as Word
      ensures spi.sent == old(spi.sent) + Datagram(WRITE | REG_PWMCONF, curPwmconf)
    {
      var v := value;
      valPwmGrad := v;
      var _, c := Send2130(WRITE | REG_PWMCONF, curPwmconf, (v as Word) << 8, 0xFF00);
      curPwmconf := c;
    }

    /** set_PWM_FREQ: every uint8_t input is below the smallest divider 410,
        so it is raised to 410, which the uint8_t truncates to 154; no divider
        is at most 154, so the loop leaves 154, and the field at bits 16-17
        always receives code 0b10. */
    method SetPwmFreq(value: Byte)
      modifies this`valPwmFreq, this`curPwmconf, spi`sent
      ensures valPwmFreq == 154
      ensures curPwmconf == Merge(old(curPwmconf), (valPwmFreq as Word) << 16, 0x3_0000)
      ensures curPwmconf & 0x3_0000 == 0x2_0000
      ensures spi.sent == old(spi.sent) + Datagram(WRITE | REG_PWMCONF, curPwmconf)
    {
      PwmFreqDescending();
      var v := Quantize(PwmFreqValid, value);
      PwmFreqSetting(value, v);
      valPwmFreq := v;
      var _, c := Send2130(WRITE | REG_PWMCONF, curPwmconf, (v as Word) << 16, 0x3_0000);
      curPwmconf := c;
    }

    /** set_PWM_AUTOSCALE: bit 18 of PWMCONF, clamped to 1. */
    method SetPwmAutoscale(value: Byte)
      modifies this`valPwmAutoscale, this`curPwmconf, spi`sent
      ensures valPwmAutoscale == ClampMax8(value, 1)
      ensures curPwmconf == Merge(old(curPwmconf), (valPwmAutoscale as Word) << 18, 0x40000)
      ensures (curPwmconf >> 18) & 0x1 == valPwmAutoscale as Word
      ensures spi.sent == old(spi.sent) + Datagram(WRITE | REG_PWMCONF, curPwmconf)
    {
      var v := ClampMax8(value, 1);
      valPwmAutoscale := v;
      var _, c := Send2130(WRITE | REG_PWMCONF, curPwmconf, (v as Word) << 18, 0x40000);
      curPwmconf := c;
    }

    /** set_PWM_SYMMETRIC: bit 19 of PWMCONF, clamped to 1. */
    method SetPwmSymmetric(value: Byte)
      modifies this`valPwmSymmetric, this`curPwmconf, spi`sent
      ensures valPwmSymmetric == ClampMax8(value, 1)
      ensures curPwmconf == Merge(old(curPwmconf), (valPwmSymmetric as Word) << 19, 0x80000)
      ensures (curPwmconf >> 19) & 0x1 == valPwmSymmetric as Word
      ensures spi.sent == old(spi.sent) + Datagram(WRITE | REG_PWMCONF, curPwmconf)
    {
      var v := ClampMax8(value, 1);
      valPwmSymmetric := v;
      var _, c := Send2130(WRITE | REG_PWMCONF, curPwmconf, (v as Word) << 19, 0x80000);
      curPwmconf := c;
    }

    /** set_FREEWHEEL: the standstill option is clamped to 1..4 and stored
        minus one in bits 20-21. */
    method SetFreewheel(value: Byte)
      modifies this`valFreewheel, this`curPwmconf, spi`sent
      ensures valFreewheel == ClampRange8(value, 1, 4)
      ensures curPwmconf == Merge(old(curPwmconf), FreewheelBits(valFreewheel), 0x30_0000)
      ensures ((curPwmconf >> 20) & 3) + 1 == valFreewheel as Word
      ensures spi.sent == old(spi.sent) + Datagram(WRITE | REG_PWMCONF, curPwmconf)
    {
      var v := ClampRange8(value, 1, 4);
      valFreewheel := v;
      var _, c := Send2130(WRITE | REG_PWMCONF, curPwmconf, FreewheelBits(v), 0x30_0000);
      curPwmconf := c;
    }

    // -------------------------------------------------------------------------
    // DRV_STATUS

    /** get_DRVSTATUS: a read of register 0x6F into a zeroed word; the nonzero
        address byte sends it down the write branch with mask 0, so the result
        is 0. */
    method GetDrvstatus() returns (data: Word)
      modifies spi`sent
      ensures data == 0
      ensures spi.sent == old(spi.sent) + Datagram(READ | REG_DRVSTATUS, 0)
    {
      data := 0;
      var _, d := Send2130(READ | REG_DRVSTATUS, data, 0, 0);
      data := d;
    }

  }
}