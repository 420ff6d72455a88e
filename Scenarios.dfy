/** Call sequences on a freshly constructed driver, showing what the shadows,
    the caches and the bus hold afterwards. */
module Scenarios {
  import opened Codec
  import opened Tmc2130

  /** A driver with a zero read header on a bus that answers `reply`. */
  method NewDriver(reply: nat -> Byte) returns (d: TMC2130Stepper)
    ensures fresh(d) && fresh(d.spi)
    ensures d.WRITE == 0x80 && d.READ == 0 && d.spi.reply == reply && d.spi.sent == []
    ensures d.Zeroed()
  {
    var bus := new SpiBus(reply);
    d := new TMC2130Stepper(0x80, 0, bus);
  }

  /** set_IRUN then set_IHOLD on a zero shadow: both currents are clamped to
      31 and sit side by side in IHOLD_IRUN, the first one surviving the
      second write. */
  method RunThenHoldCurrent(run: Byte, hold: Byte) returns (irun: Byte, ihold: Byte, w: Word)
    ensures irun == ClampMax8(run, 31) && ihold == ClampMax8(hold, 31)
    ensures w & 0x1F00 == (irun as Word) << 8
    ensures w & 0x1F == ihold as Word
    ensures w & !0x1F1F == 0
  {
    var d := NewDriver((n: nat) => 0);
    d.SetIrun(run);
    d.SetIhold(hold);
    DisjointWriteKeepsField(0, (d.valIrun as Word) << 8, 0x1F00, d.valIhold as Word, 0x1F);
    irun, ihold, w := d.valIrun, d.valIhold, d.curIholdIrun;
  }

  /** set_IRUN(31) then set_IHOLD(31) leaves 0x1F1F in the shadow and sends
      two datagrams to register 0x10. */
  method FullCurrent() returns (w: Word, sent: seq<Byte>)
    ensures w == 0x1F1F
    ensures sent == [0x90, 0, 0, 0x1F, 0, 0x90, 0, 0, 0x1F, 0x1F]
  {
    var d := NewDriver((n: nat) => 0);
    d.SetIrun(31);
    d.SetIhold(31);
    w, sent := d.curIholdIrun, d.spi.sent;
    DatagramBytes(0x90, 0x1F00);
    DatagramBytes(0x90, 0x1F1F);
  }

  /** In spreadCycle mode (chm 0, as after construction) set_TFD is ignored:
      no cache, no shadow and no byte on the bus changes. */
  method TfdIgnoredInSpreadCycle(value: Byte) returns (tfd: Byte, chopconf: Word, sent: seq<Byte>)
    ensures tfd == 0 && chopconf == 0 && sent == []
  {
    var d := NewDriver((n: nat) => 0);
    d.SetTfd(value);
    tfd, chopconf, sent := d.valTfd, d.curChopconf, d.spi.sent;
  }

  /** In constant off time mode set_OFFSET stores its value in the hysteresis
      end cache: valHend holds it and valOffset stays 0. */
  method OffsetCachedAsHend() returns (hend: Int8, offset: Int8, chopconf: Word)
    ensures hend == 5 && offset == 0
    ensures chopconf == 0x4000 | (8 << 7)
  {
    var d := NewDriver((n: nat) => 0);
    d.SetChm(1);
    d.SetOffset(5);
    hend, offset, chopconf := d.valHend, d.valOffset, d.curChopconf;
  }

  /** set_SEMAX caches its value in valSemin, leaving valSemax at 0. */
  method SemaxCachedAsSemin() returns (semin: Byte, semax: Byte, coolconf: Word)
    ensures semin == 9 && semax == 0 && coolconf == 0x900
  {
    var d := NewDriver((n: nat) => 0);
    d.SetSemax(9);
    semin, semax, coolconf := d.valSemin, d.valSemax, d.curCoolconf;
  }

  /** set_SGT writes its biased value into the CHOPCONF shadow, not COOLCONF. */
  method SgtWrittenToChopconf() returns (chopconf: Word, coolconf: Word)
    ensures chopconf == 64 << 16 && coolconf == 0
  {
    var d := NewDriver((n: nat) => 0);
    d.SetSgt(0);
    chopconf, coolconf := d.curChopconf, d.curCoolconf;
  }

  /** set_IHOLD_DELAY's mask 0xF000 covers bit 12, the top bit of IRUN: after
      set_IRUN(31) the cache still says 31 but the shadow's IRUN field holds
      15, and that is what the datagram carries. */
  method IholdDelayClobbersIrun(delay: Byte) returns (irun: Byte, w: Word)
    ensures irun == 31
    ensures (w >> 8) & 0x1F == 15
    ensures w == 0xF00
  {
    var d := NewDriver((n: nat) => 0);
    d.SetIrun(31);
    d.SetIholdDelay(delay);
    irun, w := d.valIrun, d.curIholdIrun;
  }

  /** set_SGT's mask 0x7F0000 covers bit 16 of the blank time field: after
      set_TBL(54) leaves code 0b10 there, set_SGT(-64) writes a biased 0 over
      it, so the cache still says 54 while the shadow's blank time code is 0. */
  method SgtClobbersTbl() returns (tbl: Byte, chopconf: Word)
    ensures tbl == 54
    ensures chopconf & 0x18000 == 0
  {
    var d := NewDriver((n: nat) => 0);
    d.SetTbl(54);
    ghost var k :| LargestAtMost(TblValid, 54, k) && d.valTbl as bv16 == TblValid[k];
    TblDescending();
    LargestAtMostUnique(TblValid, 54, k, 0);
    d.SetSgt(0xC0);
    tbl, chopconf := d.valTbl, d.curChopconf;
  }

  /** set_SFILT's bit 24 is bit 0 of the MRES code: after set_MRES caches 16
      (code 0b0100), set_SFILT(1) turns the code into 0b0101 while the cache
      still says 16. */
  method SfiltClobbersMres(value: Byte) returns (mres: Byte, chopconf: Word)
    requires 16 <= value <= 31
    ensures mres == 16
    ensures (chopconf >> 24) & 0xF == 5
  {
    var d := NewDriver((n: nat) => 0);
    d.SetMres(value);
    ghost var k :| MresSetting(value, d.valMres, k) && d.curChopconf == Merge(0, (k as Word) << 24, 0xF00_0000);
    MresSixteen(value, d.valMres, k);
    d.SetSfilt(1);
    mres, chopconf := d.valMres, d.curChopconf;
  }

  /** set_MRES with any input from 16 to 31 caches 16 and writes code 0b0100
      to bits 24-27 of a zero CHOPCONF shadow. */
  method MresSixteenSteps(value: Byte) returns (mres: Byte, chopconf: Word)
    requires 16 <= value <= 31
    ensures mres == 16 && chopconf == 0x400_0000
  {
    var d := NewDriver((n: nat) => 0);
    d.SetMres(value);
    ghost var k :| MresSetting(value, d.valMres, k) && d.curChopconf == Merge(0, (k as Word) << 24, 0xF00_0000);
    MresSixteen(value, d.valMres, k);
    mres, chopconf := d.valMres, d.curChopconf;
  }

  /** set_PWM_FREQ caches 154 and writes code 0b10 whatever its input. */
  method PwmFreqAlwaysTwo(value: Byte) returns (freq: Byte, pwmconf: Word)
    ensures freq == 154 && pwmconf == 0x2_0000
  {
    var d := NewDriver((n: nat) => 0);
    d.SetPwmFreq(value);
    freq, pwmconf := d.valPwmFreq, d.curPwmconf;
  }

  /** get_TSTEP returns 0 whatever the chip answers: its address byte 0x12 is
      taken for a write of a zero word. */
  method TstepReadsZero(reply: nat -> Byte) returns (t: Word, sent: seq<Byte>)
    ensures t == 0 && sent == [0x12, 0, 0, 0, 0]
  {
    var d := NewDriver(reply);
    t := d.GetTstep();
    sent := d.spi.sent;
    DatagramBytes(0x12, 0);
  }

  /** get_GCONF with a zero read header does read: it returns the four bytes
      the chip answers after the address byte, most significant first. */
  method GconfReadsReply(reply: nat -> Byte) returns (g: Word)
    ensures g == WordBE(reply(1), reply(2), reply(3), reply(4))
    ensures g >> 24 == reply(1) as Word && g & 0xFF == reply(4) as Word
  {
    var d := NewDriver(reply);
    g := d.GetGconf();
  }
}
