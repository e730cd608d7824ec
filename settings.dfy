/** The setting enumerations of the tool, their `hex()` encoders, the
    constant frame tables and the default configuration. A frame is eight
    bytes written as sixteen lower-case hexadecimal digits. */
module Settings {
  import opened Wrappers
  import opened HexCodec

  const FRAME_DIGITS: nat := 16

  predicate IsLowerHex(s: string) {
    forall k | 0 <= k < |s| :: IsLowerHexDigit(s[k])
  }

  /** Sixteen lower-case hexadecimal digits: one eight-byte frame. */
  predicate IsFrame(s: string) {
    |s| == FRAME_DIGITS && IsLowerHex(s)
  }

  lemma LowerHexConcat(a: string, b: string)
    requires IsLowerHex(a) && IsLowerHex(b)
    ensures IsLowerHex(a + b)
  {
    forall k | 0 <= k < |a + b| ensures IsLowerHexDigit((a + b)[k]) {
      if k >= |a| { assert (a + b)[k] == b[k - |a|]; }
    }
  }

  /** Every frame of a frame list is well formed. */
  predicate WellFormed(frames: seq<string>) {
    forall i | 0 <= i < |frames| :: IsFrame(frames[i])
  }

  // ---------------------------------------------------------------- DPI
  // (the source names these constants `DPI1` .. `DPI8`)

  const DPI1_HEX: string := "040700ff817e807f"  // 1000
  const DPI2_HEX: string := "040701fe817e807f"  // 1600
  const DPI3_HEX: string := "040702fd817e807f"  // 2400
  const DPI4_HEX: string := "040703fd817e807f"  // 3200
  const DPI5_HEX: string := "040704fd817e807f"  // 4800
  const DPI6_HEX: string := "040705fd817e807f"  // 6400
  const DPI7_HEX: string := "040706fd817e807f"  // 7200
  const DPI8_HEX: string := "040707fd817e807f"  // 8000

  datatype DpiVal = DPI1 | DPI2 | DPI3 | DPI4 | DPI5 | DPI6 | DPI7 | DPI8
  {
    function Hex(): string {
      match this
      case DPI1 => DPI1_HEX
      case DPI2 => DPI2_HEX
      case DPI3 => DPI3_HEX
      case DPI4 => DPI4_HEX
      case DPI5 => DPI5_HEX
      case DPI6 => DPI6_HEX
      case DPI7 => DPI7_HEX
      case DPI8 => DPI8_HEX
    }
  }

  // ------------------------------------------------- continuous firing

  const CONTINOUUSLY_DISABLED: string := "0407fdfffffc1bff"
  /** Enabling continuous firing also disables the repeat count, whose frame
      then reads `04070afdffa1fe03`. */
  const CONTINOUUSLY_ENABLED: string := "0407fdfffffc64ff"

  datatype ContinouslyState = Enable | Disable
  {
    function Hex(): string {
      match this
      case Enable => CONTINOUUSLY_ENABLED
      case Disable => CONTINOUUSLY_DISABLED
    }
  }

  // ---------------------------------------------------------------- LEDs

  const LED_DISABLE: string := "040701fe8976807f"
  const LED_ENABLE: string := "040701fe817e807f"
  const LED_MODE_MULTI: string := "040701fe827d807f"
  const LED_MODE_RAINBOW: string := "040701fe837c807f"
  const LED_MODE_FLOE_LIGHT: string := "040701fe847b807f"
  const LED_MODE_WALTZ: string := "040701fe857a807f"
  const LED_MODE_FOUR_SEASONS: string := "040701fe8679807f"
  const LED_MODE_DPI: string := "040701fe817e807f"
  const LED_MODE_OFF: string := "040701fe8778807f"
  /** Brightness lives in two frames, patched together. */
  const LED_BRGT_FULL: (string, string) := ("040745f80638ff00", "0407ff00ffffff71")
  const LED_BRGT_HALF: (string, string) := ("040745f80630ff00", "0407ff00ffffff79")

  datatype LedStatus = Enable | Disable
  {
    function Hex(): string {
      match this
      case Enable => LED_ENABLE
      case Disable => LED_DISABLE
    }
  }

  datatype LedBrightness = All | Half
  {
    function Hex(): (string, string) {
      match this
      case All => LED_BRGT_FULL
      case Half => LED_BRGT_HALF
    }
  }

  datatype LedMode = Dpi | Multi | Rainbow | FloeLight | Waltz | FourSeasons | Off
  {
    function Hex(): string {
      match this
      case Multi => LED_MODE_MULTI
      case Rainbow => LED_MODE_RAINBOW
      case FloeLight => LED_MODE_FLOE_LIGHT
      case Waltz => LED_MODE_WALTZ
      case FourSeasons => LED_MODE_FOUR_SEASONS
      case Dpi => LED_MODE_DPI
      case Off => LED_MODE_OFF
    }
  }

  // ----------------------------------------------------- breathing speed

  /** The breathing-speed table as the source writes it; entry 4 carries a
      stray leading `1` and is seventeen digits long. */
  const BREATHING_SPEED_HEX: seq<string> := [
    "040701fee11e807f",
    "040701fec13e807f",
    "040701fea15e807f",
    "040701fe817e807f",
    "1040701fe619e807f",
    "040701fe41be807f",
    "040701fe21de807f",
    "040701fe01fe807f"
  ]

  /** Entry 4 without the stray digit, following the pattern of its
      neighbours (`..e11e..`, `..c13e..`, ..., `..817e..`, `..619e..`, `..41be..`). */
  const BS5_CORRECTED: string := "040701fe619e807f"

  datatype BreathingSpeed = BS1 | BS2 | BS3 | BS4 | BS5 | BS6 | BS7 | BS8
  {
    function Index(): (i: nat)
      ensures i < |BREATHING_SPEED_HEX|
    {
      match this
      case BS1 => 0
      case BS2 => 1
      case BS3 => 2
      case BS4 => 3
      case BS5 => 4
      case BS6 => 5
      case BS7 => 6
      case BS8 => 7
    }

    /** `BreathingSpeed::hex()` as written, reading the uncorrected table. */
    function HexAsWritten(): string {
      BREATHING_SPEED_HEX[Index()]
    }

    /** The encoder the rest of the model uses: the table with entry 4
        corrected. */
    function Hex(): string {
      if this == BS5 then BS5_CORRECTED else HexAsWritten()
    }
  }

  // ------------------------------------------------------ frame template

  /** Entry `i` of `COMMON_HEX`, the 48-frame default transaction. */
  function CommonFrame(i: nat): string
    requires i < 48
  {
    match i
    case 0 => "0401000000000000"
    case 1 => "0403000000000000"
    case 2 => "04060000ff000000"
    case 3 => "040745f80638ff00"
    case 4 => "040702040607090a"
    case 5 => "0407070104030002"
    case 6 => "04070506ff007fff"
    case 7 => "0407ffff00ff00ff"
    case 8 => "040700ff0000ffff"
    case 9 => "0407000000ffffff"
    case 10 => "0407ff00ffffff71"
    case 11 => "040701fe817e807f"
    case 12 => "0407ffffffffffff"
    case 13 => "0407feffffff0101"
    case 14 => "0407000104000102"
    case 15 => "0407000108000110"
    case 16 => "0407000500000700"
    case 17 => "0407000800000600"
    case 18 => "0407f00101000104"
    case 19 => "0407000102000108"
    case 20 => "0407000110000500"
    case 21 => "0407000700000800"
    case 22 => "0407000600f006ff"
    case 23 => "0407feffffffffff"
    case 24 => "0407fe990e05010e"
    case 25 => "040705190e05310e"
    case 26 => "040705490e05610e"
    case 27 => "040705790e05910e"
    case 28 => "040705a90e05c10e"
    case 29 => "040705d9ffffffff"
    case 30 => "0407ffffffffffff"
    case 31 => "0407feffffffffff"
    case 32 => "0407fdff00ff00ff"
    case 33 => "040700ff00ff00ff"
    case 34 => "040700ff00ff00ff"
    case 35 => "040700ff00ffffff"
    case 36 => "0407feffffffffff"
    case 37 => "0407fdffffffff00"
    case 38 => "04070000ff000000"
    case 39 => "0407ffffff00ff00"
    case 40 => "0407ff00ffffff80"
    case 41 => "040700ff008000ff"
    case 42 => "040780ffffffffff"
    case 43 => "04070afd03a1fe03"
    case 44 => "040721fe08fc94ff"
    case 45 => "0407fdfffffc94ff"
    case 46 => "0408000000000000"
    case 47 => "0402000000000000"
  }

  function CommonHex(): (r: seq<string>)
    ensures |r| == 48 && forall i | 0 <= i < 48 :: r[i] == CommonFrame(i)
  {
    seq(48, i requires 0 <= i < 48 => CommonFrame(i))
  }

  /** `COMMON_HEX`, the 48-frame default transaction. */
  const COMMON_HEX: seq<string> := CommonHex()

  // -------------------------------------------------------- arguments

  /** The LED options of the command line (`--led-brightness`,
      `--breathing-speed`), each optional. */
  datatype LedArgs = LedArgs(ledBrightness: Option<LedBrightness>, breathingSpeed: Option<BreathingSpeed>)

  /** The fire-control options (`--repeat`, `--firing-interval`,
      `--continously`), each optional. */
  datatype FireControl = FireControl(repeat: Option<byte>, firingInterval: Option<byte>, continously: Option<ContinouslyState>)

  /** `MouseConfig`, the record of every setting. */
  datatype MouseConfig = MouseConfig(
    repeat: byte,
    firingInterval: byte,
    continously: ContinouslyState,
    movingSpeed: byte,
    doubleClickSpeed: byte,
    rollingSpeed: byte,
    ledArgs: LedArgs,
    ledStatus: LedStatus,
    dpi: DpiVal,
    ledMode: LedMode,
    reset: bool)

  /** `MouseConfig::default()`. */
  function DefaultConfig(): MouseConfig {
    MouseConfig(
      repeat := 3,
      firingInterval := 6,
      continously := ContinouslyState.Disable,
      movingSpeed := 6,
      doubleClickSpeed := 7,
      rollingSpeed := 3,
      ledArgs := LedArgs(Some(LedBrightness.All), Some(BreathingSpeed.BS4)),
      ledStatus := LedStatus.Enable,
      dpi := DpiVal.DPI2,
      ledMode := LedMode.Dpi,
      reset := false)
  }

  // ------------------------------------------------------------ lemmas

  /** Every entry of `COMMON_HEX` is a well-formed frame (checked four
      entries at a time). */
  lemma CommonHexWellFormed()
    ensures |COMMON_HEX| == 48 && WellFormed(COMMON_HEX)
  {
    CommonFramesFrom0();
    CommonFramesFrom4();
    CommonFramesFrom8();
    CommonFramesFrom12();
    CommonFramesFrom16();
    CommonFramesFrom20();
    CommonFramesFrom24();
    CommonFramesFrom28();
    CommonFramesFrom32();
    CommonFramesFrom36();
    CommonFramesFrom40();
    CommonFramesFrom44();
  }

  lemma CommonFramesFrom0()
    ensures forall i | 0 <= i < 4 :: IsFrame(CommonFrame(i))
  {
  }

  lemma CommonFramesFrom4()
    ensures forall i | 4 <= i < 8 :: IsFrame(CommonFrame(i))
  {
  }

  lemma CommonFramesFrom8()
    ensures forall i | 8 <= i < 12 :: IsFrame(CommonFrame(i))
  {
  }

  lemma CommonFramesFrom12()
    ensures forall i | 12 <= i < 16 :: IsFrame(CommonFrame(i))
  {
  }

  lemma CommonFramesFrom16()
    ensures forall i | 16 <= i < 20 :: IsFrame(CommonFrame(i))
  {
  }

  lemma CommonFramesFrom20()
    ensures forall i | 20 <= i < 24 :: IsFrame(CommonFrame(i))
  {
  }

  lemma CommonFramesFrom24()
    ensures forall i | 24 <= i < 28 :: IsFrame(CommonFrame(i))
  {
  }

  lemma CommonFramesFrom28()
    ensures forall i | 28 <= i < 32 :: IsFrame(CommonFrame(i))
  {
  }

  lemma CommonFramesFrom32()
    ensures forall i | 32 <= i < 36 :: IsFrame(CommonFrame(i))
  {
  }

  lemma CommonFramesFrom36()
    ensures forall i | 36 <= i < 40 :: IsFrame(CommonFrame(i))
  {
  }

  lemma CommonFramesFrom40()
    ensures forall i | 40 <= i < 44 :: IsFrame(CommonFrame(i))
  {
  }

  lemma CommonFramesFrom44()
    ensures forall i | 44 <= i < 48 :: IsFrame(CommonFrame(i))
  {
  }

  /** Every encoder constant is a well-formed frame, the corrected
      breathing speeds included. */
  lemma EncodersAreFrames()
    ensures forall d: DpiVal :: IsFrame(d.Hex())
    ensures forall c: ContinouslyState :: IsFrame(c.Hex())
    ensures forall s: LedStatus :: IsFrame(s.Hex())
    ensures forall m: LedMode :: IsFrame(m.Hex())
    ensures forall b: LedBrightness :: IsFrame(b.Hex().0) && IsFrame(b.Hex().1)
    ensures forall bs: BreathingSpeed :: IsFrame(bs.Hex())
  {
    DpiFrames();
    LedModeFrames();
    BreathingSpeedFrames();
    OtherFrames();
  }

  lemma DpiFrames()
    ensures forall d: DpiVal :: IsFrame(d.Hex())
  {
    forall d: DpiVal ensures IsFrame(d.Hex()) {
      match d
      case DPI1 => case DPI2 => case DPI3 => case DPI4 =>
      case DPI5 => case DPI6 => case DPI7 => case DPI8 =>
    }
  }

  lemma LedModeFrames()
    ensures forall m: LedMode :: IsFrame(m.Hex())
  {
    forall m: LedMode ensures IsFrame(m.Hex()) {
      match m
      case Dpi => case Multi => case Rainbow => case FloeLight =>
      case Waltz => case FourSeasons => case Off =>
    }
  }

  lemma BreathingSpeedFrames()
    ensures forall bs: BreathingSpeed :: IsFrame(bs.Hex())
  {
    forall bs: BreathingSpeed ensures IsFrame(bs.Hex()) {
      match bs
      case BS1 => case BS2 => case BS3 => case BS4 =>
      case BS5 => case BS6 => case BS7 => case BS8 =>
    }
  }

  lemma OtherFrames()
    ensures forall c: ContinouslyState :: IsFrame(c.Hex())
    ensures forall s: LedStatus :: IsFrame(s.Hex())
    ensures forall b: LedBrightness :: IsFrame(b.Hex().0) && IsFrame(b.Hex().1)
  {
    ContinouslyFrames();
    LedStatusFrames();
    BrightnessFrames();
  }

  lemma ContinouslyFrames()
    ensures IsFrame(CONTINOUUSLY_ENABLED) && IsFrame(CONTINOUUSLY_DISABLED)
  {
  }

  lemma LedStatusFrames()
    ensures IsFrame(LED_ENABLE) && IsFrame(LED_DISABLE)
  {
  }

  lemma BrightnessFrames()
    ensures IsFrame(LED_BRGT_FULL.0) && IsFrame(LED_BRGT_FULL.1)
    ensures IsFrame(LED_BRGT_HALF.0) && IsFrame(LED_BRGT_HALF.1)
  {
  }

  /** As written, the breathing-speed table has one entry of seventeen
      digits, BS5's; every other entry is a well-formed frame. */
  lemma BreathingSpeedTableAsWritten()
    ensures |BreathingSpeed.BS5.HexAsWritten()| == 17
    ensures forall bs: BreathingSpeed :: bs != BreathingSpeed.BS5 ==> IsFrame(bs.HexAsWritten())
    ensures forall bs: BreathingSpeed :: bs != BreathingSpeed.BS5 ==> bs.Hex() == bs.HexAsWritten()
  {
    forall bs: BreathingSpeed | bs != BreathingSpeed.BS5 ensures IsFrame(bs.HexAsWritten()) {
      match bs
      case BS1 => case BS2 => case BS3 => case BS4 =>
      case BS6 => case BS7 => case BS8 =>
    }
  }
}
