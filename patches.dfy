/** The patch macros: each maps `str::replace` of a fixed placeholder frame
    over a frame list. The DPI, LED and breathing-speed macros share one
    placeholder; the brightness macro replaces a pair of frames; the
    continuous-fire macro also rewrites the repeat frame when enabling. */
module Patches {
  import opened HexCodec
  import opened TextReplace
  import opened Settings

  const REPEAT_PLACEHOLDER: string := "04070afd03a1fe03"
  const INTERVAL_PLACEHOLDER: string := "040721fe08fc94ff"
  /** Searched for by the DPI, LED-mode, LED-status and breathing macros. */
  const SHARED_PLACEHOLDER: string := "040701fe817e807f"
  const CONTINUOUS_PLACEHOLDER: string := "0407fdfffffc94ff"
  /** The repeat frame with the repeat byte set to `ff`: repeat disabled. */
  const REPEAT_DISABLED: string := "04070afdffa1fe03"

  /** The repeat frame for `v`: the placeholder with `fd03` replaced by
      `fd` and the byte's two hex digits. */
  function RepeatFrame(v: byte): (f: string)
    ensures f == "04070afd" + HexByte(v) + "a1fe03"
  {
    RepeatSplice(v);
    Replace(REPEAT_PLACEHOLDER, "fd03", "fd" + HexByte(v))
  }

  lemma RepeatSplice(v: byte)
    ensures Replace(REPEAT_PLACEHOLDER, "fd03", "fd" + HexByte(v)) == "04070afd" + HexByte(v) + "a1fe03"
  {
    RepeatReplaceOnce("fd" + HexByte(v));
    RepeatPieces(HexByte(v));
  }

  lemma RepeatPieces(hex: string)
    ensures REPEAT_PLACEHOLDER[..6] == "04070a" && REPEAT_PLACEHOLDER[10..] == "a1fe03"
    ensures "04070a" + ("fd" + hex) == "04070afd" + hex
  {
  }

  lemma RepeatReplaceOnce(rep: string)
    ensures Replace(REPEAT_PLACEHOLDER, "fd03", rep) == REPEAT_PLACEHOLDER[..6] + rep + REPEAT_PLACEHOLDER[10..]
  {
    RepeatPlaceholderScan();
    ReplaceOnce(REPEAT_PLACEHOLDER, "fd03", rep, 6);
  }

  /** `fd03` occurs in the repeat placeholder exactly once, at digit 6. */
  lemma RepeatPlaceholderScan()
    ensures OccursAt(REPEAT_PLACEHOLDER, "fd03", 6)
    ensures forall i: nat | i < 6 :: !OccursAt(REPEAT_PLACEHOLDER, "fd03", i)
    ensures forall i: nat | 10 <= i <= |REPEAT_PLACEHOLDER| :: !OccursAt(REPEAT_PLACEHOLDER, "fd03", i)
  {
    var s := REPEAT_PLACEHOLDER;
    forall i: nat | i < 6 ensures !OccursAt(s, "fd03", i) {
      assert s[i] != 'f';
      Mismatch(s, "fd03", i, 0);
    }
    forall i: nat | 10 <= i <= |s| ensures !OccursAt(s, "fd03", i) {
      if i <= 12 { assert s[i + 1] != 'd'; }
      Mismatch(s, "fd03", i, 1);
    }
  }

  /** The firing-interval frame for `v`: the placeholder with `fe08`
      replaced by `fe` and the byte's two hex digits. */
  function IntervalFrame(v: byte): (f: string)
    ensures f == "040721fe" + HexByte(v) + "fc94ff"
  {
    IntervalSplice(v);
    Replace(INTERVAL_PLACEHOLDER, "fe08", "fe" + HexByte(v))
  }

  lemma IntervalSplice(v: byte)
    ensures Replace(INTERVAL_PLACEHOLDER, "fe08", "fe" + HexByte(v)) == "040721fe" + HexByte(v) + "fc94ff"
  {
    IntervalReplaceOnce("fe" + HexByte(v));
    IntervalPieces(HexByte(v));
  }

  lemma IntervalPieces(hex: string)
    ensures INTERVAL_PLACEHOLDER[..6] == "040721" && INTERVAL_PLACEHOLDER[10..] == "fc94ff"
    ensures "040721" + ("fe" + hex) == "040721fe" + hex
  {
  }

  lemma IntervalReplaceOnce(rep: string)
    ensures Replace(INTERVAL_PLACEHOLDER, "fe08", rep) == INTERVAL_PLACEHOLDER[..6] + rep + INTERVAL_PLACEHOLDER[10..]
  {
    IntervalPlaceholderScan();
    ReplaceOnce(INTERVAL_PLACEHOLDER, "fe08", rep, 6);
  }

  /** `fe08` occurs in the interval placeholder exactly once, at digit 6. */
  lemma IntervalPlaceholderScan()
    ensures OccursAt(INTERVAL_PLACEHOLDER, "fe08", 6)
    ensures forall i: nat | i < 6 :: !OccursAt(INTERVAL_PLACEHOLDER, "fe08", i)
    ensures forall i: nat | 10 <= i <= |INTERVAL_PLACEHOLDER| :: !OccursAt(INTERVAL_PLACEHOLDER, "fe08", i)
  {
    var s := INTERVAL_PLACEHOLDER;
    forall i: nat | i < 6 ensures !OccursAt(s, "fe08", i) {
      assert s[i] != 'f';
      Mismatch(s, "fe08", i, 0);
    }
    forall i: nat | 10 <= i <= |s| ensures !OccursAt(s, "fe08", i) {
      if i <= 12 { assert s[i + 1] != 'e'; }
      Mismatch(s, "fe08", i, 1);
    }
  }

  /** `generate_hex_val_for_repeat!` */
  function PatchRepeat(v: byte, frames: seq<string>): seq<string> {
    ReplaceAll(frames, REPEAT_PLACEHOLDER, RepeatFrame(v))
  }

  /** `generate_hex_for_interval!` */
  function PatchInterval(v: byte, frames: seq<string>): seq<string> {
    ReplaceAll(frames, INTERVAL_PLACEHOLDER, IntervalFrame(v))
  }

  /** `gen_hex_for_led!`, given the `hex()` of an LED mode or an LED status. */
  function PatchLed(hex: string, frames: seq<string>): seq<string> {
    ReplaceAll(frames, SHARED_PLACEHOLDER, hex)
  }

  /** `gen_hex_for_dpi!` */
  function PatchDpi(dpi: DpiVal, frames: seq<string>): seq<string> {
    ReplaceAll(frames, SHARED_PLACEHOLDER, dpi.Hex())
  }

  /** `gen_hex_for_breathing_speed!`, with the corrected table. */
  function PatchBreathing(speed: BreathingSpeed, frames: seq<string>): seq<string> {
    ReplaceAll(frames, SHARED_PLACEHOLDER, speed.Hex())
  }

  /** `gen_hex_for_breathing_speed!` reading the table as written. */
  function PatchBreathingAsWritten(speed: BreathingSpeed, frames: seq<string>): seq<string> {
    ReplaceAll(frames, SHARED_PLACEHOLDER, speed.HexAsWritten())
  }

  /** `gen_hex_for_led_brgt!`: each frame goes through both replacements,
      first the `LED_BRGT_FULL.0` placeholder, then `LED_BRGT_FULL.1`. */
  function PatchBrightness(brightness: LedBrightness, frames: seq<string>): (r: seq<string>)
    ensures |r| == |frames|
  {
    var (first, second) := brightness.Hex();
    seq(|frames|, i requires 0 <= i < |frames| =>
      Replace(Replace(frames[i], LED_BRGT_FULL.0, first), LED_BRGT_FULL.1, second))
  }

  /** `gen_hex_for_continously!`: the continuous frame is replaced; when the
      encoding is the enabled one, each frame then also goes through the
      rewrite of the untouched repeat frame to the disabled one. */
  function PatchContinuous(state: ContinouslyState, frames: seq<string>): (r: seq<string>)
    ensures |r| == |frames|
  {
    var hex := state.Hex();
    if hex == "0407fdfffffc64ff" then
      seq(|frames|, i requires 0 <= i < |frames| =>
        Replace(Replace(frames[i], CONTINUOUS_PLACEHOLDER, hex), REPEAT_PLACEHOLDER, REPEAT_DISABLED))
    else
      ReplaceAll(frames, CONTINUOUS_PLACEHOLDER, hex)
  }

  // ------------------------------------------------- per-frame effect

  /** The repeat patch turns the repeat placeholder into the repeat frame
      for `v` and leaves every other frame as it was. */
  lemma RepeatPatchEffect(v: byte, frames: seq<string>)
    requires UniformWidth(frames, FRAME_DIGITS)
    ensures |PatchRepeat(v, frames)| == |frames|
    ensures forall i | 0 <= i < |frames| :: PatchRepeat(v, frames)[i] ==
              if frames[i] == REPEAT_PLACEHOLDER then "04070afd" + HexByte(v) + "a1fe03" else frames[i]
  {
    ReplaceAllWhole(frames, REPEAT_PLACEHOLDER, RepeatFrame(v));
  }

  /** The interval patch turns the interval placeholder into the interval
      frame for `v` and leaves every other frame as it was. */
  lemma IntervalPatchEffect(v: byte, frames: seq<string>)
    requires UniformWidth(frames, FRAME_DIGITS)
    ensures |PatchInterval(v, frames)| == |frames|
    ensures forall i | 0 <= i < |frames| :: PatchInterval(v, frames)[i] ==
              if frames[i] == INTERVAL_PLACEHOLDER then "040721fe" + HexByte(v) + "fc94ff" else frames[i]
  {
    ReplaceAllWhole(frames, INTERVAL_PLACEHOLDER, IntervalFrame(v));
  }

  /** The LED patch swaps the shared placeholder for the given encoding. */
  lemma LedPatchEffect(hex: string, frames: seq<string>)
    requires UniformWidth(frames, FRAME_DIGITS)
    ensures |PatchLed(hex, frames)| == |frames|
    ensures forall i | 0 <= i < |frames| :: PatchLed(hex, frames)[i] ==
              if frames[i] == SHARED_PLACEHOLDER then hex else frames[i]
  {
    ReplaceAllWhole(frames, SHARED_PLACEHOLDER, hex);
  }

  /** The DPI patch swaps the shared placeholder for the level's frame. */
  lemma DpiPatchEffect(dpi: DpiVal, frames: seq<string>)
    requires UniformWidth(frames, FRAME_DIGITS)
    ensures |PatchDpi(dpi, frames)| == |frames|
    ensures forall i | 0 <= i < |frames| :: PatchDpi(dpi, frames)[i] ==
              if frames[i] == SHARED_PLACEHOLDER then dpi.Hex() else frames[i]
  {
    ReplaceAllWhole(frames, SHARED_PLACEHOLDER, dpi.Hex());
  }

  /** The breathing patch swaps the shared placeholder for the speed's frame. */
  lemma BreathingPatchEffect(speed: BreathingSpeed, frames: seq<string>)
    requires UniformWidth(frames, FRAME_DIGITS)
    ensures |PatchBreathing(speed, frames)| == |frames|
    ensures forall i | 0 <= i < |frames| :: PatchBreathing(speed, frames)[i] ==
              if frames[i] == SHARED_PLACEHOLDER then speed.Hex() else frames[i]
  {
    ReplaceAllWhole(frames, SHARED_PLACEHOLDER, speed.Hex());
  }

  /** The brightness patch touches only the two brightness placeholders. */
  lemma BrightnessPatchEffect(brightness: LedBrightness, frames: seq<string>)
    requires UniformWidth(frames, FRAME_DIGITS)
    ensures |PatchBrightness(brightness, frames)| == |frames|
    ensures forall i | 0 <= i < |frames| :: PatchBrightness(brightness, frames)[i] ==
              if frames[i] == LED_BRGT_FULL.0 then brightness.Hex().0
              else if frames[i] == LED_BRGT_FULL.1 then brightness.Hex().1
              else frames[i]
  {
    var (first, second) := brightness.Hex();
    forall i | 0 <= i < |frames|
      ensures PatchBrightness(brightness, frames)[i] ==
        if frames[i] == LED_BRGT_FULL.0 then first
        else if frames[i] == LED_BRGT_FULL.1 then second
        else frames[i]
    {
      ReplaceWhole(frames[i], LED_BRGT_FULL.0, first);
      var mid := Replace(frames[i], LED_BRGT_FULL.0, first);
      ReplaceWhole(mid, LED_BRGT_FULL.1, second);
    }
  }

  /** The continuous patch replaces the continuous frame; enabling it also
      rewrites the repeat frame to the disabled one, but only while that
      frame still holds the default placeholder. */
  lemma ContinuousPatchEffect(state: ContinouslyState, frames: seq<string>)
    requires UniformWidth(frames, FRAME_DIGITS)
    ensures |PatchContinuous(state, frames)| == |frames|
    ensures forall i | 0 <= i < |frames| :: PatchContinuous(state, frames)[i] ==
              if frames[i] == CONTINUOUS_PLACEHOLDER then state.Hex()
              else if state == ContinouslyState.Enable && frames[i] == REPEAT_PLACEHOLDER then REPEAT_DISABLED
              else frames[i]
  {
    var hex := state.Hex();
    if state == ContinouslyState.Enable {
      forall i | 0 <= i < |frames|
        ensures PatchContinuous(state, frames)[i] ==
              if frames[i] == CONTINUOUS_PLACEHOLDER then hex
              else if frames[i] == REPEAT_PLACEHOLDER then REPEAT_DISABLED
              else frames[i]
      {
        ReplaceWhole(frames[i], CONTINUOUS_PLACEHOLDER, hex);
        var mid := Replace(frames[i], CONTINUOUS_PLACEHOLDER, hex);
        ReplaceWhole(mid, REPEAT_PLACEHOLDER, REPEAT_DISABLED);
      }
    } else {
      ReplaceAllWhole(frames, CONTINUOUS_PLACEHOLDER, hex);
    }
  }

  // -------------------------------------------- identities and sharing

  /** Exactly one value of each shared-placeholder setting encodes to the
      placeholder itself: DPI2, LED status Enable, LED mode Dpi and BS4. */
  lemma SharedEncodings()
    ensures forall d: DpiVal :: d.Hex() == SHARED_PLACEHOLDER <==> d == DpiVal.DPI2
    ensures forall s: LedStatus :: s.Hex() == SHARED_PLACEHOLDER <==> s == LedStatus.Enable
    ensures forall m: LedMode :: m.Hex() == SHARED_PLACEHOLDER <==> m == LedMode.Dpi
    ensures forall bs: BreathingSpeed :: bs.Hex() == SHARED_PLACEHOLDER <==> bs == BreathingSpeed.BS4
  {
    forall d: DpiVal ensures d.Hex() == SHARED_PLACEHOLDER <==> d == DpiVal.DPI2 {
      if d != DpiVal.DPI2 { Mismatch(d.Hex(), SHARED_PLACEHOLDER, 0, 5); }
    }
    forall s: LedStatus ensures s.Hex() == SHARED_PLACEHOLDER <==> s == LedStatus.Enable {
      if s != LedStatus.Enable { Mismatch(s.Hex(), SHARED_PLACEHOLDER, 0, 9); }
    }
    forall m: LedMode ensures m.Hex() == SHARED_PLACEHOLDER <==> m == LedMode.Dpi {
      if m != LedMode.Dpi { Mismatch(m.Hex(), SHARED_PLACEHOLDER, 0, 9); }
    }
    forall bs: BreathingSpeed ensures bs.Hex() == SHARED_PLACEHOLDER <==> bs == BreathingSpeed.BS4 {
      if bs != BreathingSpeed.BS4 { Mismatch(bs.Hex(), SHARED_PLACEHOLDER, 0, 8); }
    }
  }

  /** Repeat 3 is the repeat placeholder itself: the default repeat patch
      changes nothing. */
  lemma DefaultRepeatIsIdentity(frames: seq<string>)
    ensures PatchRepeat(3, frames) == frames
  {
    RepeatFrameOfThree();
    ReplaceAllSelf(frames, REPEAT_PLACEHOLDER);
  }

  lemma RepeatFrameOfThree()
    ensures RepeatFrame(3) == REPEAT_PLACEHOLDER
  {
    HexByteLiterals();
    RepeatLiteral();
  }

  /** Interval 8, not the default 6, is the interval placeholder itself. */
  lemma PlaceholderIntervalIsIdentity(frames: seq<string>)
    ensures PatchInterval(8, frames) == frames
  {
    IntervalFrameOfEight();
    ReplaceAllSelf(frames, INTERVAL_PLACEHOLDER);
  }

  lemma IntervalFrameOfEight()
    ensures IntervalFrame(8) == INTERVAL_PLACEHOLDER
  {
    HexByteLiterals();
    IntervalLiteral();
  }

  /** Only repeat 3 writes the repeat placeholder back. */
  lemma RepeatFrameIsPlaceholder(v: byte)
    ensures RepeatFrame(v) == REPEAT_PLACEHOLDER <==> v == 3
  {
    if RepeatFrame(v) == REPEAT_PLACEHOLDER {
      var hex := HexByte(v);
      assert hex == RepeatFrame(v)[8..10];
      assert hex[0] == '0' && hex[1] == '3';
    } else if v == 3 {
      RepeatFrameOfThree();
    }
  }

  /** Only interval 8 writes the interval placeholder back. */
  lemma IntervalFrameIsPlaceholder(v: byte)
    ensures IntervalFrame(v) == INTERVAL_PLACEHOLDER <==> v == 8
  {
    if IntervalFrame(v) == INTERVAL_PLACEHOLDER {
      var hex := HexByte(v);
      assert hex == IntervalFrame(v)[8..10];
      assert hex[0] == '0' && hex[1] == '8';
    } else if v == 8 {
      IntervalFrameOfEight();
    }
  }

  /** The repeat frame written when the repeat value defaults to 0. */
  lemma RepeatFrameOfZero()
    ensures RepeatFrame(0) == "04070afd00a1fe03"
  {
    HexByteLiterals();
    ZeroRepeatLiteral();
  }

  /** The interval frame written when the interval defaults to 0. */
  lemma IntervalFrameOfZero()
    ensures IntervalFrame(0) == "040721fe00fc94ff"
  {
    HexByteLiterals();
    ZeroIntervalLiteral();
  }

  /** The interval frame of the default interval 6. */
  lemma IntervalFrameOfSix()
    ensures IntervalFrame(6) == "040721fe06fc94ff"
  {
    HexByteLiterals();
    SixIntervalLiteral();
  }

  /** DPI2, LED status Enable, LED mode Dpi and BS4 encode to the shared
      placeholder, so their patches leave any frame list unchanged. */
  lemma SharedDefaultsAreIdentities(frames: seq<string>)
    ensures PatchDpi(DpiVal.DPI2, frames) == frames
    ensures PatchLed(LedStatus.Enable.Hex(), frames) == frames
    ensures PatchLed(LedMode.Dpi.Hex(), frames) == frames
    ensures PatchBreathing(BreathingSpeed.BS4, frames) == frames
  {
    ReplaceAllSelf(frames, SHARED_PLACEHOLDER);
  }

  /** Brightness All encodes to the two brightness placeholders, so its
      patch leaves any frame list unchanged. */
  lemma BrightnessAllIsIdentity(frames: seq<string>)
    ensures PatchBrightness(LedBrightness.All, frames) == frames
  {
    forall i | 0 <= i < |frames| ensures PatchBrightness(LedBrightness.All, frames)[i] == frames[i] {
      ReplaceSelf(frames[i], LED_BRGT_FULL.0);
      ReplaceSelf(frames[i], LED_BRGT_FULL.1);
    }
  }

  /** Once a shared-placeholder patch has written a value other than the
      placeholder, the placeholder is gone and every later DPI, LED or
      breathing patch changes nothing. */
  lemma SharedPlaceholderConsumed(first: string, frames: seq<string>)
    requires UniformWidth(frames, FRAME_DIGITS) && |first| == FRAME_DIGITS
    requires first != SHARED_PLACEHOLDER
    ensures forall i | 0 <= i < |frames| :: PatchLed(first, frames)[i] != SHARED_PLACEHOLDER
    ensures forall d: DpiVal :: PatchDpi(d, PatchLed(first, frames)) == PatchLed(first, frames)
    ensures forall h: string :: PatchLed(h, PatchLed(first, frames)) == PatchLed(first, frames)
    ensures forall bs: BreathingSpeed :: PatchBreathing(bs, PatchLed(first, frames)) == PatchLed(first, frames)
  {
    var after := PatchLed(first, frames);
    LedPatchEffect(first, frames);
    forall h: string ensures ReplaceAll(after, SHARED_PLACEHOLDER, h) == after {
      ReplaceAllWhole(after, SHARED_PLACEHOLDER, h);
    }
  }

  // ------------------------------------------------------- well-formedness

  lemma ReplaceAllKeepsWellFormed(frames: seq<string>, pat: string, rep: string)
    requires WellFormed(frames) && |pat| == FRAME_DIGITS && IsFrame(rep)
    ensures WellFormed(ReplaceAll(frames, pat, rep))
  {
    ReplaceAllWhole(frames, pat, rep);
  }

  /** The repeat and interval frames of any byte are well-formed frames. */
  lemma ByteFramesAreFrames(v: byte)
    ensures IsFrame(RepeatFrame(v)) && IsFrame(IntervalFrame(v))
  {
    var hex := HexByte(v);
    assert IsLowerHex(hex);
    FramePiecesAreHex();
    LowerHexConcat("04070afd", hex);
    LowerHexConcat("04070afd" + hex, "a1fe03");
    LowerHexConcat("040721fe", hex);
    LowerHexConcat("040721fe" + hex, "fc94ff");
  }

  /** The single-frame patches map well-formed frame lists to well-formed
      frame lists, so they preserve the frame width (with the corrected
      breathing table). */
  lemma SinglePatchesKeepWellFormed(frames: seq<string>, v: byte, hex: string, dpi: DpiVal, speed: BreathingSpeed)
    requires WellFormed(frames) && IsFrame(hex)
    ensures WellFormed(PatchRepeat(v, frames))
    ensures WellFormed(PatchInterval(v, frames))
    ensures WellFormed(PatchLed(hex, frames))
    ensures WellFormed(PatchDpi(dpi, frames))
    ensures WellFormed(PatchBreathing(speed, frames))
  {
    DpiFrames();
    BreathingSpeedFrames();
    ByteFramesAreFrames(v);
    ReplaceAllKeepsWellFormed(frames, REPEAT_PLACEHOLDER, RepeatFrame(v));
    ReplaceAllKeepsWellFormed(frames, INTERVAL_PLACEHOLDER, IntervalFrame(v));
    ReplaceAllKeepsWellFormed(frames, SHARED_PLACEHOLDER, hex);
    ReplaceAllKeepsWellFormed(frames, SHARED_PLACEHOLDER, dpi.Hex());
    ReplaceAllKeepsWellFormed(frames, SHARED_PLACEHOLDER, speed.Hex());
  }

  /** The brightness and continuous patches map well-formed frame lists to
      well-formed frame lists. */
  lemma PairPatchesKeepWellFormed(frames: seq<string>, brightness: LedBrightness, state: ContinouslyState)
    requires WellFormed(frames)
    ensures WellFormed(PatchBrightness(brightness, frames))
    ensures WellFormed(PatchContinuous(state, frames))
  {
    OtherFrames();
    RepeatDisabledIsFrame();
    BrightnessPatchEffect(brightness, frames);
    ContinuousPatchEffect(state, frames);
  }

  // ------------------------------------------------------------ idempotence

  /** Applying the same single-frame patch twice gives the result of
      applying it once. */
  lemma SinglePatchesIdempotent(frames: seq<string>, v: byte, hex: string, dpi: DpiVal, speed: BreathingSpeed)
    requires UniformWidth(frames, FRAME_DIGITS) && |hex| == FRAME_DIGITS
    ensures PatchRepeat(v, PatchRepeat(v, frames)) == PatchRepeat(v, frames)
    ensures PatchInterval(v, PatchInterval(v, frames)) == PatchInterval(v, frames)
    ensures PatchLed(hex, PatchLed(hex, frames)) == PatchLed(hex, frames)
    ensures PatchDpi(dpi, PatchDpi(dpi, frames)) == PatchDpi(dpi, frames)
    ensures PatchBreathing(speed, PatchBreathing(speed, frames)) == PatchBreathing(speed, frames)
  {
    DpiFrames();
    BreathingSpeedFrames();
    ReplaceAllIdempotent(frames, REPEAT_PLACEHOLDER, RepeatFrame(v));
    ReplaceAllIdempotent(frames, INTERVAL_PLACEHOLDER, IntervalFrame(v));
    ReplaceAllIdempotent(frames, SHARED_PLACEHOLDER, hex);
    ReplaceAllIdempotent(frames, SHARED_PLACEHOLDER, dpi.Hex());
    ReplaceAllIdempotent(frames, SHARED_PLACEHOLDER, speed.Hex());
  }

  /** Applying the brightness patch twice gives the result of applying it once. */
  lemma BrightnessPatchIdempotent(frames: seq<string>, brightness: LedBrightness)
    requires UniformWidth(frames, FRAME_DIGITS)
    ensures PatchBrightness(brightness, PatchBrightness(brightness, frames)) == PatchBrightness(brightness, frames)
  {
    OtherFrames();
    var once := PatchBrightness(brightness, frames);
    BrightnessPatchEffect(brightness, frames);
    BrightnessPatchEffect(brightness, once);
  }

  /** Applying the continuous patch twice gives the result of applying it once. */
  lemma ContinuousPatchIdempotent(frames: seq<string>, state: ContinouslyState)
    requires UniformWidth(frames, FRAME_DIGITS)
    ensures PatchContinuous(state, PatchContinuous(state, frames)) == PatchContinuous(state, frames)
  {
    OtherFrames();
    var once := PatchContinuous(state, frames);
    ContinuousPatchEffect(state, frames);
    ContinuousPatchEffect(state, once);
  }

  // ---------------------------------------------------- literal facts
  // One-fact lemmas about constants, kept apart so that the proofs above
  // reason about them symbolically; they state nothing about the tool.

  lemma HexByteLiterals()
    ensures HexByte(3) == "03" && HexByte(8) == "08" && HexByte(6) == "06"
    ensures HexByte(0) == "00" && HexByte(5) == "05" && HexByte(255) == "ff"
  {
  }

  lemma RepeatLiteral()
    ensures "04070afd" + "03" + "a1fe03" == REPEAT_PLACEHOLDER
  {
  }

  lemma IntervalLiteral()
    ensures "040721fe" + "08" + "fc94ff" == INTERVAL_PLACEHOLDER
  {
  }

  lemma ZeroRepeatLiteral()
    ensures "04070afd" + "00" + "a1fe03" == "04070afd00a1fe03"
  {
  }

  lemma ZeroIntervalLiteral()
    ensures "040721fe" + "00" + "fc94ff" == "040721fe00fc94ff"
  {
  }

  lemma SixIntervalLiteral()
    ensures "040721fe" + "06" + "fc94ff" == "040721fe06fc94ff"
  {
  }

  lemma FramePiecesAreHex()
    ensures IsLowerHex("04070afd") && IsLowerHex("a1fe03")
    ensures IsLowerHex("040721fe") && IsLowerHex("fc94ff")
  {
  }

  lemma RepeatDisabledIsFrame()
    ensures IsFrame(REPEAT_DISABLED)
  {
  }
}
