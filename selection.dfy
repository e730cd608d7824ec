/** The frame-selection steps that both command-line front ends share:
    how the fire-control and LED options resolve to setting values, the
    base frame list that every subcommand patches, the fire-control-only
    and LED-only requests, and the conversion of frames to packets. */
module Selection {
  import opened Wrappers
  import opened HexCodec
  import opened TextReplace
  import opened Settings
  import opened Patches
  import opened Template

  // ------------------------------------------------------ option values

  /** `repeat` as `main` resolves it: the default without fire-control
      options, otherwise `repeat.unwrap_or_default()`, which is 0 when
      `--repeat` is absent. */
  function RepeatSetting(fc: Option<FireControl>): byte {
    match fc
    case None => DefaultConfig().repeat
    case Some(f) => if f.repeat.Some? then f.repeat.value else 0
  }

  /** `firing_interval`, resolved the same way. */
  function IntervalSetting(fc: Option<FireControl>): byte {
    match fc
    case None => DefaultConfig().firingInterval
    case Some(f) => if f.firingInterval.Some? then f.firingInterval.value else 0
  }

  /** `repeat` resolved with the documented default in place of `0`. */
  function RepeatSettingCorrected(fc: Option<FireControl>): byte {
    if fc.Some? && fc.value.repeat.Some? then fc.value.repeat.value else DefaultConfig().repeat
  }

  /** `firing_interval` resolved with the documented default in place of `0`. */
  function IntervalSettingCorrected(fc: Option<FireControl>): byte {
    if fc.Some? && fc.value.firingInterval.Some? then fc.value.firingInterval.value
    else DefaultConfig().firingInterval
  }

  /** The brightness the base list is patched with: the user's, only when
      the LED options name a brightness and no breathing speed. */
  function BrightnessSetting(led: Option<LedArgs>): LedBrightness {
    match led
    case Some(LedArgs(Some(b), None)) => b
    case _ => DefaultConfig().ledArgs.ledBrightness.value
  }

  /** The breathing speed the base list is patched with: the user's, only
      when the LED options name a breathing speed and no brightness. */
  function BreathingSetting(led: Option<LedArgs>): BreathingSpeed {
    match led
    case Some(LedArgs(None, Some(bs))) => bs
    case _ => DefaultConfig().ledArgs.breathingSpeed.value
  }

  // -------------------------------------------------------- frame lists

  /** The chain `main` builds before looking at the subcommand: repeat and
      interval patches on `COMMON_HEX`, then brightness, then breathing. */
  function BaseFrames(repeat: byte, interval: byte, brightness: LedBrightness, speed: BreathingSpeed): seq<string> {
    PatchBreathing(speed, PatchBrightness(brightness, PatchInterval(interval, PatchRepeat(repeat, COMMON_HEX))))
  }

  /** The slots of the base list. */
  function BaseSlots(repeat: byte, interval: byte, brightness: LedBrightness, speed: BreathingSpeed): Slots {
    Slots(brightness.Hex().0, brightness.Hex().1, speed.Hex(),
          RepeatFrame(repeat), IntervalFrame(interval), CONTINUOUS_PLACEHOLDER)
  }

  /** The request with fire-control options and no subcommand, matched in
      the source's order; `repeatHex` is the repeat-patched template that
      the continuous case starts from. */
  function FireControlFrames(fc: FireControl, repeatHex: seq<string>): seq<string> {
    match fc
    case FireControl(Some(r), None, _) => PatchRepeat(r, COMMON_HEX)
    case FireControl(None, Some(i), _) => PatchInterval(i, COMMON_HEX)
    case FireControl(Some(r), Some(i), _) => PatchInterval(i, PatchRepeat(r, COMMON_HEX))
    case FireControl(None, None, Some(c)) => PatchContinuous(c, repeatHex)
    case FireControl(None, None, None) => []
  }

  /** The request with LED options only: a breathing speed patches
      `COMMON_HEX`, anything else yields no frames. */
  function LedArgsFrames(led: LedArgs): seq<string> {
    match led.breathingSpeed
    case Some(bs) => PatchBreathing(bs, COMMON_HEX)
    case None => []
  }

  /** `convert_str_hex` over every frame; `None` when a frame does not
      parse, where the source panics. */
  function Packets(frames: seq<string>): (r: Option<seq<seq<byte>>>)
    ensures r.Some? ==> |r.value| == |frames|
  {
    if |frames| == 0 then Some([])
    else
      match (ConvertStrHex(frames[0]), Packets(frames[1..]))
      case (Some(p), Some(ps)) => Some([p] + ps)
      case _ => None
  }

  // ------------------------------------------------------------ lemmas

  /** The base list is the template with the brightness, shared, repeat
      and interval slots filled by the resolved settings; only the
      continuous slot keeps its placeholder. */
  lemma BaseFramesFill(repeat: byte, interval: byte, brightness: LedBrightness, speed: BreathingSpeed)
    ensures BaseFrames(repeat, interval, brightness, speed) == Fill(BaseSlots(repeat, interval, brightness, speed))
    ensures Kinded(BaseSlots(repeat, interval, brightness, speed))
  {
    FillPlaceholders();
    PlaceholdersKinded();
    EncodersTagged();
    ByteFramesTagged(repeat);
    ByteFramesTagged(interval);
    var s0 := PLACEHOLDERS;
    RepeatOnFill(repeat, s0);
    var s1 := s0.(repeat := RepeatFrame(repeat));
    IntervalOnFill(interval, s1);
    var s2 := s1.(interval := IntervalFrame(interval));
    BrightnessOnFill(brightness, s2);
    var s3 := s2.(brightness0 := brightness.Hex().0, brightness1 := brightness.Hex().1);
    SharedOnFill(speed.Hex(), s3);
    assert s3.(shared := speed.Hex()) == BaseSlots(repeat, interval, brightness, speed);
  }

  /** A fire-control request rebuilds the template: a repeat or interval
      value fills its own slot and the continuous option is then ignored;
      the continuous option alone fills the continuous slot and, when
      enabling with the resolved repeat still 3, disables the repeat slot;
      no option at all yields no frames. The brightness and shared slots
      keep their placeholders. */
  lemma FireControlFramesFill(fc: FireControl, repeat: byte)
    ensures fc.repeat.Some? && fc.firingInterval.None? ==>
              FireControlFrames(fc, PatchRepeat(repeat, COMMON_HEX)) ==
              Fill(PLACEHOLDERS.(repeat := RepeatFrame(fc.repeat.value)))
    ensures fc.repeat.None? && fc.firingInterval.Some? ==>
              FireControlFrames(fc, PatchRepeat(repeat, COMMON_HEX)) ==
              Fill(PLACEHOLDERS.(interval := IntervalFrame(fc.firingInterval.value)))
    ensures fc.repeat.Some? && fc.firingInterval.Some? ==>
              FireControlFrames(fc, PatchRepeat(repeat, COMMON_HEX)) ==
              Fill(PLACEHOLDERS.(repeat := RepeatFrame(fc.repeat.value), interval := IntervalFrame(fc.firingInterval.value)))
    ensures fc.repeat.None? && fc.firingInterval.None? && fc.continously.Some? ==>
              FireControlFrames(fc, PatchRepeat(repeat, COMMON_HEX)) ==
              Fill(PLACEHOLDERS.(repeat := if fc.continously.value == ContinouslyState.Enable && repeat == 3
                                           then REPEAT_DISABLED else RepeatFrame(repeat),
                                 continuous := fc.continously.value.Hex()))
    ensures fc == FireControl(None, None, None) ==> FireControlFrames(fc, PatchRepeat(repeat, COMMON_HEX)) == []
  {
    FillPlaceholders();
    PlaceholdersKinded();
    var s0 := PLACEHOLDERS;
    match fc
    case FireControl(Some(r), None, _) =>
      RepeatOnFill(r, s0);
    case FireControl(None, Some(i), _) =>
      IntervalOnFill(i, s0);
    case FireControl(Some(r), Some(i), _) =>
      RepeatOnFill(r, s0);
      ByteFramesTagged(r);
      IntervalOnFill(i, s0.(repeat := RepeatFrame(r)));
    case FireControl(None, None, Some(c)) =>
      RepeatOnFill(repeat, s0);
      ByteFramesTagged(repeat);
      RepeatFrameIsPlaceholder(repeat);
      ContinuousOnFill(c, s0.(repeat := RepeatFrame(repeat)));
    case FireControl(None, None, None) =>
  }

  /** An LED-only request fills the shared slot with the breathing speed,
      or yields no frames when it names no breathing speed. */
  lemma LedArgsFramesFill(led: LedArgs)
    ensures led.breathingSpeed.Some? ==>
              LedArgsFrames(led) == Fill(PLACEHOLDERS.(shared := led.breathingSpeed.value.Hex()))
    ensures led.breathingSpeed.None? ==> LedArgsFrames(led) == []
  {
    FillPlaceholders();
    PlaceholdersKinded();
    if led.breathingSpeed.Some? {
      SharedOnFill(led.breathingSpeed.value.Hex(), PLACEHOLDERS);
    }
  }

  /** The slots of the base list are well-formed frames. */
  lemma BaseSlotsAreFrames(repeat: byte, interval: byte, brightness: LedBrightness, speed: BreathingSpeed)
    ensures SlotsAreFrames(BaseSlots(repeat, interval, brightness, speed))
  {
    BreathingSpeedFrames();
    OtherFrames();
    ByteFramesAreFrames(repeat);
    ByteFramesAreFrames(interval);
    PlaceholdersKinded();
  }

  /** Every well-formed frame list converts, frame by frame, into packets
      of eight bytes, each byte read high digit first. */
  lemma {:induction false} PacketsOfWellFormed(frames: seq<string>)
    requires WellFormed(frames)
    ensures Packets(frames).Some?
    ensures forall k | 0 <= k < |frames| :: Some(Packets(frames).value[k]) == ConvertStrHex(frames[k])
    ensures forall k | 0 <= k < |frames| :: |Packets(frames).value[k]| == 8
  {
    if |frames| > 0 {
      ConvertFrame(frames[0]);
      assert WellFormed(frames[1..]) by {
        forall k | 0 <= k < |frames[1..]| ensures IsFrame(frames[1..][k]) {
          assert frames[1..][k] == frames[k + 1];
        }
      }
      PacketsOfWellFormed(frames[1..]);
      forall k | 0 <= k < |frames| ensures Some(Packets(frames).value[k]) == ConvertStrHex(frames[k]) {
        if k > 0 { assert frames[1..][k - 1] == frames[k]; }
      }
    }
  }

  /** A well-formed frame converts into eight bytes. */
  lemma ConvertFrame(frame: string)
    requires IsFrame(frame)
    ensures ConvertStrHex(frame).Some? && |ConvertStrHex(frame).value| == 8
  {
    forall k | 0 <= k < |frame| ensures IsHexDigit(frame[k]) {
      assert IsLowerHexDigit(frame[k]);
    }
    ConvertDigits(frame);
  }

  // ------------------------------------------------- BS5 table entry

  /** As written, breathing speed BS5 writes a seventeen-digit frame into
      the shared slot; it is not a frame, and `convert_str_hex` turns it
      into nine bytes read one digit out of step, the last from a lone
      digit, so the packet no longer starts with report id 4. */
  lemma BreathingFiveAsWritten()
    ensures PatchBreathingAsWritten(BreathingSpeed.BS5, COMMON_HEX) == Fill(PLACEHOLDERS.(shared := "1040701fe619e807f"))
    ensures !WellFormed(PatchBreathingAsWritten(BreathingSpeed.BS5, COMMON_HEX))
    ensures ConvertStrHex(PatchBreathingAsWritten(BreathingSpeed.BS5, COMMON_HEX)[11]) ==
              Some([0x10, 0x40, 0x70, 0x1f, 0xe6, 0x19, 0xe8, 0x07, 0x0f])
  {
    var hex := BreathingSpeed.BS5.HexAsWritten();
    var s := PLACEHOLDERS.(shared := hex);
    FillPlaceholders();
    PlaceholdersKinded();
    BreathingFiveLiteral();
    SharedOnFill(hex, PLACEHOLDERS);
    FillAt(s);
    BreathingFiveBytesAsWritten(hex, "1040701fe619e807");
  }

  lemma BreathingFiveBytesAsWritten(hex: string, even: string)
    requires hex == "1040701fe619e807f" && even == "1040701fe619e807"
    ensures ConvertStrHex(hex) == Some([0x10, 0x40, 0x70, 0x1f, 0xe6, 0x19, 0xe8, 0x07, 0x0f])
  {
    HexDigitsOf(even);
    ConvertDigits(even);
    var v := ConvertStrHex(even).value;
    assert v[0] == 0x10 && v[1] == 0x40 && v[2] == 0x70 && v[3] == 0x1f;
    assert v[4] == 0xe6 && v[5] == 0x19 && v[6] == 0xe8 && v[7] == 0x07;
    assert v == [0x10, 0x40, 0x70, 0x1f, 0xe6, 0x19, 0xe8, 0x07];
    var last := "f";
    LoneDigit(last);
    assert hex == even + last;
    ConvertConcat(even, last);
    assert v + [0x0f] == [0x10, 0x40, 0x70, 0x1f, 0xe6, 0x19, 0xe8, 0x07, 0x0f];
  }

  /** With the entry corrected, BS5 fills the shared slot with a frame of
      the shared kind that converts into the eight bytes `04 07 01 fe 61
      9e 80 7f`. */
  lemma BreathingFiveCorrected()
    ensures PatchBreathing(BreathingSpeed.BS5, COMMON_HEX) == Fill(PLACEHOLDERS.(shared := BS5_CORRECTED))
    ensures WellFormed(PatchBreathing(BreathingSpeed.BS5, COMMON_HEX))
    ensures ConvertStrHex(PatchBreathing(BreathingSpeed.BS5, COMMON_HEX)[11]) ==
              Some([0x04, 0x07, 0x01, 0xfe, 0x61, 0x9e, 0x80, 0x7f])
  {
    var hex := BreathingSpeed.BS5.Hex();
    var s := PLACEHOLDERS.(shared := hex);
    FillPlaceholders();
    PlaceholdersKinded();
    BreathingFiveLiteral();
    SharedOnFill(hex, PLACEHOLDERS);
    BreathingSpeedFrames();
    FillWidth(s);
    FillAt(s);
    BreathingFiveBytesCorrected(hex);
  }

  lemma BreathingFiveBytesCorrected(hex: string)
    requires hex == BS5_CORRECTED
    ensures ConvertStrHex(hex) == Some([0x04, 0x07, 0x01, 0xfe, 0x61, 0x9e, 0x80, 0x7f])
  {
    HexDigitsOf(hex);
    ConvertDigits(hex);
    var v := ConvertStrHex(hex).value;
    assert v[0] == 0x04 && v[1] == 0x07 && v[2] == 0x01 && v[3] == 0xfe;
    assert v[4] == 0x61 && v[5] == 0x9e && v[6] == 0x80 && v[7] == 0x7f;
    assert v == [0x04, 0x07, 0x01, 0xfe, 0x61, 0x9e, 0x80, 0x7f];
  }

  // ---------------------------------------------------- literal facts
  // One-fact lemmas about constants, kept apart so that the proofs above
  // reason about them symbolically; they state nothing about the tool.

  lemma BreathingFiveLiteral()
    ensures BreathingSpeed.BS5.HexAsWritten() == "1040701fe619e807f"
    ensures BreathingSpeed.BS5.Hex() == BS5_CORRECTED
  {
  }

  lemma HexDigitsOf(hex: string)
    requires hex == "1040701fe619e807" || hex == BS5_CORRECTED
    ensures forall k | 0 <= k < |hex| :: IsHexDigit(hex[k])
  {
  }

  lemma LoneDigit(hex: string)
    requires hex == "f"
    ensures ConvertStrHex(hex) == Some([0x0f])
  {
    assert hex[..1] == hex && hex[1..] == "";
    assert ParseChunk(hex) == Some(0x0f);
    assert ConvertStrHex(hex[1..]) == Some([]);
    assert [0x0f] + [] == [0x0f];
  }
}
