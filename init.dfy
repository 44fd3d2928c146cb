/**
 * The power-on sequence: hardware and software reset, wake-up, pixel format,
 * orientation, porch timing, panel tuning, inversion, normal mode, display on
 * and tearing-effect control, with the delays the controller needs between
 * them.
 */
module InitSequence {
  import opened Wire

  /** RESET: hold the reset pin low for 20 ms, release it, SWRESET, wait 150 ms. */
  function ResetTrace(): (trace: seq<Event>)
  {
    [ResetLine(false), Delay(20), ResetLine(true), Cmd(SWRESET), Delay(150)]
  }

  /**
   * The six parameter bytes of porch_control.  The back and front porch of
   * normal mode keep 7 bits, the other four fields 4 bits; the third byte
   * also carries the porch-enable flag in its top bit.
   */
  function PorchBytes(bpa: Byte, fpa: Byte, psen: bool, bpb: Byte, fpb: Byte, bpc: Byte, fpc: Byte): (p: seq<Byte>)
    ensures |p| == 6
    ensures p[0] < 0x80 && p[0] % 0x80 == bpa % 0x80
    ensures p[1] < 0x80 && p[1] % 0x80 == fpa % 0x80
    ensures (p[2] >= 0x80 <==> psen) && p[2] / 0x10 % 8 == 0 && p[2] % 0x10 == bpb % 0x10
    ensures p[3] < 0x10 && p[3] == fpb % 0x10
    ensures p[4] < 0x10 && p[4] == bpc % 0x10
    ensures p[5] < 0x10 && p[5] == fpc % 0x10
  {
    [bpa % 0x80, fpa % 0x80, (if psen then 0x80 else 0x00) + bpb % 0x10, fpb % 0x10, bpc % 0x10, fpc % 0x10]
  }

  /** porch_control: PORCTRL, then each parameter byte as a transfer of its own. */
  function PorchTrace(bpa: Byte, fpa: Byte, psen: bool, bpb: Byte, fpb: Byte, bpc: Byte, fpc: Byte): (trace: seq<Event>)
  {
    var p := PorchBytes(bpa, fpa, psen, bpb, fpb, bpc, fpc);
    [Cmd(PORCTRL), Data([p[0]]), Data([p[1]]), Data([p[2]]), Data([p[3]]), Data([p[4]]), Data([p[5]])]
  }

  /** set_orientation: MADCTL with one parameter byte. */
  function OrientationTrace(madctl: Byte): (trace: seq<Event>)
  {
    [Cmd(MADCTL), Data([madctl])]
  }

  /** spi_init and gpio_init: bus and pin configuration before the protocol starts. */
  function BringUpTrace(): (trace: seq<Event>)
  {
    [Platform(SpiInit), Platform(GpioInit)]
  }

  /** SLPOUT, then 120 ms for the controller to leave sleep mode. */
  function WakeUpTrace(): (trace: seq<Event>)
  {
    [Cmd(SLPOUT), Delay(120)]
  }

  /** COLMOD 0x55: 16 bits per pixel. */
  function ColorModeTrace(): (trace: seq<Event>)
  {
    [Cmd(COLMOD), Data([0x55])]
  }

  /** GCTRL 0x35 and VCOMS 0x1F: the gate voltages and the VCOM level of the panel. */
  function TuningTrace(): (trace: seq<Event>)
  {
    [Cmd(GCTRL), Data([0x35]), Cmd(VCOMS), Data([0x1F])]
  }

  /** INVON, 10 ms, NORON, DISPON, then 150 ms for the output to settle. */
  function DisplayOnTrace(): (trace: seq<Event>)
  {
    [Cmd(INVON), Delay(10), Cmd(NORON), Cmd(DISPON), Delay(150)]
  }

  /** TEON with parameter 0x00, then the backlight at duty 10. */
  function FinishTrace(): (trace: seq<Event>)
  {
    [Cmd(TEON), Data([0x00]), Platform(Backlight(10))]
  }

  /** Everything INIT puts on the link and the platform calls around it, in order. */
  function InitTrace(): (trace: seq<Event>)
  {
    BringUpTrace() + ResetTrace() + WakeUpTrace() + ColorModeTrace() + OrientationTrace(0x00)
    + PorchTrace(0x0C, 0x0C, false, 0x10, 0x10, 0x02, 0x02) + TuningTrace() + DisplayOnTrace()
    + FinishTrace()
  }

  /**
   * The same trace written out event by event.  The masks of porch_control
   * turn the requested 0x10 of the second back porch and front porch into 0x00.
   */
  function InitScript(): (trace: seq<Event>)
  {
    [Platform(SpiInit), Platform(GpioInit),
     ResetLine(false), Delay(20), ResetLine(true), Cmd(SWRESET), Delay(150),
     Cmd(SLPOUT), Delay(120),
     Cmd(COLMOD), Data([0x55]),
     Cmd(MADCTL), Data([0x00]),
     Cmd(PORCTRL), Data([0x0C]), Data([0x0C]), Data([0x00]), Data([0x00]), Data([0x02]), Data([0x02]),
     Cmd(GCTRL), Data([0x35]),
     Cmd(VCOMS), Data([0x1F]),
     Cmd(INVON), Delay(10), Cmd(NORON), Cmd(DISPON), Delay(150),
     Cmd(TEON), Data([0x00]),
     Platform(Backlight(10))]
  }

  /** INIT sends exactly the script above and nothing else. */
  lemma InitExactTrace()
    ensures InitTrace() == InitScript()
  {
  }

  /**
   * The commands of INIT in order, each with the delay that elapses before it:
   * 20 ms of reset before SWRESET, 150 ms after SWRESET, 120 ms after SLPOUT,
   * 10 ms between INVON and NORON, 150 ms between DISPON and TEON.
   */
  lemma InitSchedule()
    ensures Schedule(InitTrace()) ==
      [(SWRESET, 20), (SLPOUT, 150), (COLMOD, 120), (MADCTL, 0), (PORCTRL, 0), (GCTRL, 0),
       (VCOMS, 0), (INVON, 0), (NORON, 10), (DISPON, 0), (TEON, 150)]
  {
    StageSchedules();
    ChainSchedules(BringUpTrace(), ResetTrace(), WakeUpTrace(), ColorModeTrace(), OrientationTrace(0x00),
                   PorchTrace(0x0C, 0x0C, false, 0x10, 0x10, 0x02, 0x02), TuningTrace(), DisplayOnTrace(),
                   FinishTrace());
  }

  /** Chains the schedules of nine stages, each starting with the delay the previous one left pending. */
  lemma ChainSchedules(p1: seq<Event>, p2: seq<Event>, p3: seq<Event>, p4: seq<Event>, p5: seq<Event>,
                       p6: seq<Event>, p7: seq<Event>, p8: seq<Event>, p9: seq<Event>)
    requires ScheduleFrom(p1, 0, 0) == [] && PendingFrom(p1, 0, 0) == 0
    requires ScheduleFrom(p2, 0, 0) == [(SWRESET, 20)] && PendingFrom(p2, 0, 0) == 150
    requires ScheduleFrom(p3, 0, 150) == [(SLPOUT, 150)] && PendingFrom(p3, 0, 150) == 120
    requires ScheduleFrom(p4, 0, 120) == [(COLMOD, 120)] && PendingFrom(p4, 0, 120) == 0
    requires ScheduleFrom(p5, 0, 0) == [(MADCTL, 0)] && PendingFrom(p5, 0, 0) == 0
    requires ScheduleFrom(p6, 0, 0) == [(PORCTRL, 0)] && PendingFrom(p6, 0, 0) == 0
    requires ScheduleFrom(p7, 0, 0) == [(GCTRL, 0), (VCOMS, 0)] && PendingFrom(p7, 0, 0) == 0
    requires ScheduleFrom(p8, 0, 0) == [(INVON, 0), (NORON, 10), (DISPON, 0)] && PendingFrom(p8, 0, 0) == 150
    requires ScheduleFrom(p9, 0, 150) == [(TEON, 150)]
    ensures ScheduleFrom(p1 + p2 + p3 + p4 + p5 + p6 + p7 + p8 + p9, 0, 0) ==
      [(SWRESET, 20), (SLPOUT, 150), (COLMOD, 120), (MADCTL, 0), (PORCTRL, 0), (GCTRL, 0),
       (VCOMS, 0), (INVON, 0), (NORON, 10), (DISPON, 0), (TEON, 150)]
  {
    ScheduleAppend(p1, p2, 0);
    ScheduleAppend(p1 + p2, p3, 0);
    ScheduleAppend(p1 + p2 + p3, p4, 0);
    ScheduleAppend(p1 + p2 + p3 + p4, p5, 0);
    ScheduleAppend(p1 + p2 + p3 + p4 + p5, p6, 0);
    ScheduleAppend(p1 + p2 + p3 + p4 + p5 + p6, p7, 0);
    ScheduleAppend(p1 + p2 + p3 + p4 + p5 + p6 + p7, p8, 0);
    ScheduleAppend(p1 + p2 + p3 + p4 + p5 + p6 + p7 + p8, p9, 0);
  }

  /** The schedule of each stage of INIT, and the delay it leaves pending. */
  lemma StageSchedules()
    ensures ScheduleFrom(BringUpTrace(), 0, 0) == [] && PendingFrom(BringUpTrace(), 0, 0) == 0
    ensures ScheduleFrom(ResetTrace(), 0, 0) == [(SWRESET, 20)] && PendingFrom(ResetTrace(), 0, 0) == 150
    ensures ScheduleFrom(WakeUpTrace(), 0, 150) == [(SLPOUT, 150)] && PendingFrom(WakeUpTrace(), 0, 150) == 120
    ensures ScheduleFrom(ColorModeTrace(), 0, 120) == [(COLMOD, 120)] && PendingFrom(ColorModeTrace(), 0, 120) == 0
    ensures ScheduleFrom(OrientationTrace(0x00), 0, 0) == [(MADCTL, 0)] && PendingFrom(OrientationTrace(0x00), 0, 0) == 0
    ensures var p := PorchTrace(0x0C, 0x0C, false, 0x10, 0x10, 0x02, 0x02);
            ScheduleFrom(p, 0, 0) == [(PORCTRL, 0)] && PendingFrom(p, 0, 0) == 0
    ensures ScheduleFrom(TuningTrace(), 0, 0) == [(GCTRL, 0), (VCOMS, 0)] && PendingFrom(TuningTrace(), 0, 0) == 0
    ensures ScheduleFrom(DisplayOnTrace(), 0, 0) == [(INVON, 0), (NORON, 10), (DISPON, 0)]
            && PendingFrom(DisplayOnTrace(), 0, 0) == 150
    ensures ScheduleFrom(FinishTrace(), 0, 150) == [(TEON, 150)]
  {
  }

  /** The parameter bytes INIT sends, in order. */
  lemma InitParameters()
    ensures DataBytes(InitTrace()) == [0x55, 0x00, 0x0C, 0x0C, 0x00, 0x00, 0x02, 0x02, 0x35, 0x1F, 0x00]
  {
    StageParameters();
    PorchParameters();
    ChainParameters(BringUpTrace(), ResetTrace(), WakeUpTrace(), ColorModeTrace(), OrientationTrace(0x00),
                    PorchTrace(0x0C, 0x0C, false, 0x10, 0x10, 0x02, 0x02), TuningTrace(), DisplayOnTrace(),
                    FinishTrace());
  }

  /** The parameter bytes of each stage of INIT. */
  lemma StageParameters()
    ensures DataBytes(BringUpTrace()) == [] && DataBytes(ResetTrace()) == [] && DataBytes(WakeUpTrace()) == []
    ensures DataBytes(ColorModeTrace()) == [0x55] && DataBytes(OrientationTrace(0x00)) == [0x00]
    ensures DataBytes(TuningTrace()) == [0x35, 0x1F] && DataBytes(DisplayOnTrace()) == []
    ensures DataBytes(FinishTrace()) == [0x00]
  {
  }

  /** The parameter bytes of INIT's porch_control call. */
  lemma PorchParameters()
    ensures DataBytes(PorchTrace(0x0C, 0x0C, false, 0x10, 0x10, 0x02, 0x02)) == [0x0C, 0x0C, 0x00, 0x00, 0x02, 0x02]
  {
  }

  /** Chains the parameter bytes of nine stages. */
  lemma ChainParameters(p1: seq<Event>, p2: seq<Event>, p3: seq<Event>, p4: seq<Event>, p5: seq<Event>,
                        p6: seq<Event>, p7: seq<Event>, p8: seq<Event>, p9: seq<Event>)
    requires DataBytes(p1) == [] && DataBytes(p2) == [] && DataBytes(p3) == []
    requires DataBytes(p4) == [0x55] && DataBytes(p5) == [0x00]
    requires DataBytes(p6) == [0x0C, 0x0C, 0x00, 0x00, 0x02, 0x02]
    requires DataBytes(p7) == [0x35, 0x1F] && DataBytes(p8) == [] && DataBytes(p9) == [0x00]
    ensures DataBytes(p1 + p2 + p3 + p4 + p5 + p6 + p7 + p8 + p9)
            == [0x55, 0x00, 0x0C, 0x0C, 0x00, 0x00, 0x02, 0x02, 0x35, 0x1F, 0x00]
  {
    DataBytesAppend(p1, p2);
    DataBytesAppend(p1 + p2, p3);
    DataBytesAppend(p1 + p2 + p3, p4);
    DataBytesAppend(p1 + p2 + p3 + p4, p5);
    DataBytesAppend(p1 + p2 + p3 + p4 + p5, p6);
    DataBytesAppend(p1 + p2 + p3 + p4 + p5 + p6, p7);
    DataBytesAppend(p1 + p2 + p3 + p4 + p5 + p6 + p7, p8);
    DataBytesAppend(p1 + p2 + p3 + p4 + p5 + p6 + p7 + p8, p9);
  }
}
