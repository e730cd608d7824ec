/** The frame list as a template with six patchable slots.

    Every patch of the model rewrites only whole frames that equal one of
    six placeholders, and in `COMMON_HEX` each placeholder sits at exactly
    one index: the two LED-brightness frames at 3 and 10, the frame shared
    by DPI, LED and breathing at 11, and the repeat, interval and
    continuous-fire frames at 43, 44 and 45. Every frame list the
    patches build from `COMMON_HEX` is therefore `COMMON_HEX` with those
    six entries filled in, and each patch acts on one or two of them. */
module Template {
  import opened HexCodec
  import opened TextReplace
  import opened Settings
  import opened Patches

  datatype Slots = Slots(
    brightness0: string,
    brightness1: string,
    shared: string,
    repeat: string,
    interval: string,
    continuous: string)


  predicate IsSlot(i: nat) {
    i == 3 || i == 10 || i == 11 || i == 43 || i == 44 || i == 45
  }

  predicate IsPlaceholder(f: string) {
    f == LED_BRGT_FULL.0 || f == LED_BRGT_FULL.1 || f == SHARED_PLACEHOLDER ||
    f == REPEAT_PLACEHOLDER || f == INTERVAL_PLACEHOLDER || f == CONTINUOUS_PLACEHOLDER
  }

  /** `COMMON_HEX` with its six slots holding the given frames. */
  function Fill(s: Slots): (r: seq<string>)
    ensures |r| == 48
  {
    COMMON_HEX[3 := s.brightness0][10 := s.brightness1][11 := s.shared]
              [43 := s.repeat][44 := s.interval][45 := s.continuous]
  }

  /** The slots of `COMMON_HEX` itself: each holds its placeholder. */
  const PLACEHOLDERS: Slots := Slots(LED_BRGT_FULL.0, LED_BRGT_FULL.1, SHARED_PLACEHOLDER,
                                     REPEAT_PLACEHOLDER, INTERVAL_PLACEHOLDER, CONTINUOUS_PLACEHOLDER)

  /** A frame of sixteen digits whose third byte is written `a` `b`. The
      third byte tells the six kinds of slot apart. */
  predicate Tagged(f: string, a: char, b: char) {
    |f| == FRAME_DIGITS && f[4] == a && f[5] == b
  }

  /** Each slot holds a frame of its own kind: brightness frames carry
      `45` and `ff`, the shared frame `0` and a decimal digit, the repeat
      frame `0a`, the interval frame `21` and the continuous frame `fd`. */
  predicate Kinded(s: Slots) {
    Tagged(s.brightness0, '4', '5') && Tagged(s.brightness1, 'f', 'f') &&
    |s.shared| == FRAME_DIGITS && s.shared[4] == '0' && '0' <= s.shared[5] <= '9' &&
    Tagged(s.repeat, '0', 'a') && Tagged(s.interval, '2', '1') && Tagged(s.continuous, 'f', 'd')
  }

  predicate SlotsAreFrames(s: Slots) {
    IsFrame(s.brightness0) && IsFrame(s.brightness1) && IsFrame(s.shared) &&
    IsFrame(s.repeat) && IsFrame(s.interval) && IsFrame(s.continuous)
  }

  // ------------------------------------------------------------ template

  /** No frame of `COMMON_HEX` outside the six slots equals a placeholder. */
  lemma NoPlaceholderOutsideSlots()
    ensures forall i | 0 <= i < 48 && !IsSlot(i) :: !IsPlaceholder(COMMON_HEX[i])
  {
    NoPlaceholderFrom0();
    NoPlaceholderFrom8();
    NoPlaceholderFrom16();
    NoPlaceholderFrom24();
    NoPlaceholderFrom32();
    NoPlaceholderFrom40();
  }

  lemma NoPlaceholderFrom0()
    ensures forall i | 0 <= i < 8 && !IsSlot(i) :: !IsPlaceholder(CommonFrame(i))
  {
  }

  lemma NoPlaceholderFrom8()
    ensures forall i | 8 <= i < 16 && !IsSlot(i) :: !IsPlaceholder(CommonFrame(i))
  {
  }

  lemma NoPlaceholderFrom16()
    ensures forall i | 16 <= i < 24 && !IsSlot(i) :: !IsPlaceholder(CommonFrame(i))
  {
  }

  lemma NoPlaceholderFrom24()
    ensures forall i | 24 <= i < 32 && !IsSlot(i) :: !IsPlaceholder(CommonFrame(i))
  {
  }

  lemma NoPlaceholderFrom32()
    ensures forall i | 32 <= i < 40 && !IsSlot(i) :: !IsPlaceholder(CommonFrame(i))
  {
  }

  lemma NoPlaceholderFrom40()
    ensures forall i | 40 <= i < 48 && !IsSlot(i) :: !IsPlaceholder(CommonFrame(i))
  {
  }


  /** Filling the slots with their placeholders gives back `COMMON_HEX`. */
  lemma FillPlaceholders()
    ensures Fill(PLACEHOLDERS) == COMMON_HEX
  {
    var f := Fill(PLACEHOLDERS);
    forall i | 0 <= i < 48 ensures f[i] == COMMON_HEX[i] {
      if IsSlot(i) { assert COMMON_HEX[i] == CommonFrame(i); }
    }
  }

  lemma PlaceholdersKinded()
    ensures Kinded(PLACEHOLDERS) && SlotsAreFrames(PLACEHOLDERS)
  {
    BrightnessFrames();
    PlaceholderFrames();
    PlaceholderTags();
  }

  lemma PlaceholderFrames()
    ensures IsFrame(SHARED_PLACEHOLDER) && IsFrame(REPEAT_PLACEHOLDER)
    ensures IsFrame(INTERVAL_PLACEHOLDER) && IsFrame(CONTINUOUS_PLACEHOLDER)
  {
  }

  /** Frames of the template are sixteen digits wide, and well-formed
      when the slots hold well-formed frames. */
  lemma FillWidth(s: Slots)
    ensures Kinded(s) ==> UniformWidth(Fill(s), FRAME_DIGITS)
    ensures SlotsAreFrames(s) ==> WellFormed(Fill(s))
  {
    CommonHexWellFormed();
  }

  /** Only a slot can hold a placeholder, and each placeholder can only
      be in its own slot. */
  lemma SlotTags(s: Slots)
    requires Kinded(s)
    ensures forall i | 0 <= i < 48 :: Fill(s)[i] == REPEAT_PLACEHOLDER <==> i == 43 && s.repeat == REPEAT_PLACEHOLDER
    ensures forall i | 0 <= i < 48 :: Fill(s)[i] == INTERVAL_PLACEHOLDER <==> i == 44 && s.interval == INTERVAL_PLACEHOLDER
    ensures forall i | 0 <= i < 48 :: Fill(s)[i] == CONTINUOUS_PLACEHOLDER <==> i == 45 && s.continuous == CONTINUOUS_PLACEHOLDER
    ensures forall i | 0 <= i < 48 :: Fill(s)[i] == SHARED_PLACEHOLDER <==> i == 11 && s.shared == SHARED_PLACEHOLDER
    ensures forall i | 0 <= i < 48 :: Fill(s)[i] == LED_BRGT_FULL.0 <==> i == 3 && s.brightness0 == LED_BRGT_FULL.0
    ensures forall i | 0 <= i < 48 :: Fill(s)[i] == LED_BRGT_FULL.1 <==> i == 10 && s.brightness1 == LED_BRGT_FULL.1
  {
    NoPlaceholderOutsideSlots();
    PlaceholderTags();
  }

  /** `SlotTags` for the two brightness placeholders alone. */
  lemma BrightnessTags(s: Slots)
    requires Kinded(s)
    ensures forall i | 0 <= i < 48 :: Fill(s)[i] == LED_BRGT_FULL.0 <==> i == 3 && s.brightness0 == LED_BRGT_FULL.0
    ensures forall i | 0 <= i < 48 :: Fill(s)[i] == LED_BRGT_FULL.1 <==> i == 10 && s.brightness1 == LED_BRGT_FULL.1
  {
    SlotTags(s);
  }

  /** `SlotTags` for the continuous and repeat placeholders alone. */
  lemma ContinuousTags(s: Slots)
    requires Kinded(s)
    ensures forall i | 0 <= i < 48 :: Fill(s)[i] == REPEAT_PLACEHOLDER <==> i == 43 && s.repeat == REPEAT_PLACEHOLDER
    ensures forall i | 0 <= i < 48 :: Fill(s)[i] == CONTINUOUS_PLACEHOLDER <==> i == 45 && s.continuous == CONTINUOUS_PLACEHOLDER
  {
    SlotTags(s);
  }

  lemma PlaceholderTags()
    ensures Tagged(REPEAT_PLACEHOLDER, '0', 'a') && Tagged(INTERVAL_PLACEHOLDER, '2', '1')
    ensures Tagged(CONTINUOUS_PLACEHOLDER, 'f', 'd') && Tagged(SHARED_PLACEHOLDER, '0', '1')
    ensures Tagged(LED_BRGT_FULL.0, '4', '5') && Tagged(LED_BRGT_FULL.1, 'f', 'f')
  {
  }

  // ----------------------------------------------------- patches on slots

  /** The repeat patch fills the repeat slot while it holds its placeholder. */
  lemma RepeatOnFill(v: byte, s: Slots)
    requires Kinded(s)
    ensures PatchRepeat(v, Fill(s)) ==
              Fill(s.(repeat := if s.repeat == REPEAT_PLACEHOLDER then RepeatFrame(v) else s.repeat))
  {
    RepeatSlotReplaced(s, RepeatFrame(v));
  }

  lemma RepeatSlotReplaced(s: Slots, rep: string)
    requires Kinded(s)
    ensures ReplaceAll(Fill(s), REPEAT_PLACEHOLDER, rep) ==
              Fill(s.(repeat := if s.repeat == REPEAT_PLACEHOLDER then rep else s.repeat))
  {
    FillWidth(s);
    SlotTags(s);
    ReplaceAllWhole(Fill(s), REPEAT_PLACEHOLDER, rep);
  }

  /** The interval patch fills the interval slot while it holds its placeholder. */
  lemma IntervalOnFill(v: byte, s: Slots)
    requires Kinded(s)
    ensures PatchInterval(v, Fill(s)) ==
              Fill(s.(interval := if s.interval == INTERVAL_PLACEHOLDER then IntervalFrame(v) else s.interval))
  {
    IntervalSlotReplaced(s, IntervalFrame(v));
  }

  lemma IntervalSlotReplaced(s: Slots, rep: string)
    requires Kinded(s)
    ensures ReplaceAll(Fill(s), INTERVAL_PLACEHOLDER, rep) ==
              Fill(s.(interval := if s.interval == INTERVAL_PLACEHOLDER then rep else s.interval))
  {
    FillWidth(s);
    SlotTags(s);
    ReplaceAllWhole(Fill(s), INTERVAL_PLACEHOLDER, rep);
  }

  /** The DPI, LED and breathing patches fill the shared slot while it
      holds its placeholder. */
  lemma SharedOnFill(hex: string, s: Slots)
    requires Kinded(s)
    ensures PatchLed(hex, Fill(s)) ==
              Fill(s.(shared := if s.shared == SHARED_PLACEHOLDER then hex else s.shared))
  {
    FillWidth(s);
    SlotTags(s);
    LedPatchEffect(hex, Fill(s));
  }

  /** The brightness patch fills the two brightness slots, each while it
      holds its placeholder. */
  lemma BrightnessOnFill(brightness: LedBrightness, s: Slots)
    requires Kinded(s)
    ensures PatchBrightness(brightness, Fill(s)) ==
              Fill(s.(brightness0 := if s.brightness0 == LED_BRGT_FULL.0 then brightness.Hex().0 else s.brightness0,
                      brightness1 := if s.brightness1 == LED_BRGT_FULL.1 then brightness.Hex().1 else s.brightness1))
  {
    FillWidth(s);
    BrightnessTags(s);
    BrightnessPatchEffect(brightness, Fill(s));
  }

  /** The continuous patch fills the continuous slot while it holds its
      placeholder; enabling it also turns a repeat slot that still holds
      its placeholder into the disabled repeat frame. */
  lemma ContinuousOnFill(state: ContinouslyState, s: Slots)
    requires Kinded(s)
    ensures PatchContinuous(state, Fill(s)) ==
              Fill(s.(continuous := if s.continuous == CONTINUOUS_PLACEHOLDER then state.Hex() else s.continuous,
                      repeat := if state == ContinouslyState.Enable && s.repeat == REPEAT_PLACEHOLDER
                                then REPEAT_DISABLED else s.repeat))
  {
    FillWidth(s);
    ContinuousTags(s);
    ContinuousPatchEffect(state, Fill(s));
  }

  // ------------------------------------------------------- kinds of frame

  /** A frame the shared slot may hold: third byte `00` to `09`. */
  predicate SharedTagged(f: string) {
    |f| == FRAME_DIGITS && f[4] == '0' && '0' <= f[5] <= '9'
  }

  /** Every value the patches write lands in a slot of its own kind. */
  lemma EncodersTagged()
    ensures forall d: DpiVal :: SharedTagged(d.Hex())
    ensures forall m: LedMode :: SharedTagged(m.Hex())
    ensures forall st: LedStatus :: SharedTagged(st.Hex())
    ensures forall bs: BreathingSpeed :: SharedTagged(bs.Hex())
    ensures forall b: LedBrightness :: Tagged(b.Hex().0, '4', '5') && Tagged(b.Hex().1, 'f', 'f')
    ensures forall c: ContinouslyState :: Tagged(c.Hex(), 'f', 'd')
    ensures Tagged(REPEAT_DISABLED, '0', 'a')
  {
    SharedEncodersTagged();
    BreathingTagged();
  }

  lemma SharedEncodersTagged()
    ensures forall d: DpiVal :: SharedTagged(d.Hex())
    ensures forall m: LedMode :: SharedTagged(m.Hex())
    ensures forall st: LedStatus :: SharedTagged(st.Hex())
  {
    forall d: DpiVal ensures SharedTagged(d.Hex()) {
      match d
      case DPI1 => case DPI2 => case DPI3 => case DPI4 =>
      case DPI5 => case DPI6 => case DPI7 => case DPI8 =>
    }
    forall m: LedMode ensures SharedTagged(m.Hex()) {
      match m
      case Dpi => case Multi => case Rainbow => case FloeLight =>
      case Waltz => case FourSeasons => case Off =>
    }
  }

  lemma BreathingTagged()
    ensures forall bs: BreathingSpeed :: SharedTagged(bs.Hex())
  {
    forall bs: BreathingSpeed ensures SharedTagged(bs.Hex()) {
      match bs
      case BS1 => case BS2 => case BS3 => case BS4 =>
      case BS5 => case BS6 => case BS7 => case BS8 =>
    }
  }

  /** The repeat and interval frames of every byte carry their slot's tag. */
  lemma ByteFramesTagged(v: byte)
    ensures Tagged(RepeatFrame(v), '0', 'a') && Tagged(IntervalFrame(v), '2', '1')
  {
    var hex := HexByte(v);
    assert ("04070afd" + hex + "a1fe03")[4] == '0' && ("04070afd" + hex + "a1fe03")[5] == 'a';
    assert ("040721fe" + hex + "fc94ff")[4] == '2' && ("040721fe" + hex + "fc94ff")[5] == '1';
  }

  /** Slots keep their kinds when the interval, continuous and shared
      slots take frames of the same kinds. */
  lemma FillKindedUpdates(s: Slots, interval: string, continuous: string, shared: string)
    requires Kinded(s) && Tagged(interval, '2', '1') && Tagged(continuous, 'f', 'd') && SharedTagged(shared)
    ensures Kinded(s.(interval := interval))
    ensures Kinded(s.(interval := interval, continuous := continuous))
    ensures Kinded(s.(interval := interval, continuous := continuous, shared := shared))
  {
  }

  /** With only the shared, interval and continuous slots changed, the
      template is `COMMON_HEX` with three entries updated. */
  lemma FillUpdates(shared: string, interval: string, continuous: string)
    ensures Fill(PLACEHOLDERS.(shared := shared, interval := interval, continuous := continuous)) ==
              COMMON_HEX[11 := shared][44 := interval][45 := continuous]
  {
    var f := Fill(PLACEHOLDERS.(shared := shared, interval := interval, continuous := continuous));
    var g := COMMON_HEX[11 := shared][44 := interval][45 := continuous];
    FillPlaceholders();
    forall i | 0 <= i < 48 ensures f[i] == g[i] {
      if i != 11 && i != 44 && i != 45 {
        assert f[i] == Fill(PLACEHOLDERS)[i];
      }
    }
  }

  /** With only the shared and interval slots changed, the template is
      `COMMON_HEX` with two entries updated. */
  lemma FillSharedInterval(shared: string, interval: string)
    ensures Fill(PLACEHOLDERS.(shared := shared, interval := interval)) ==
              COMMON_HEX[11 := shared][44 := interval]
  {
    var f := Fill(PLACEHOLDERS.(shared := shared, interval := interval));
    var g := COMMON_HEX[11 := shared][44 := interval];
    FillPlaceholders();
    forall i | 0 <= i < 48 ensures f[i] == g[i] {
      if i != 11 && i != 44 {
        assert f[i] == Fill(PLACEHOLDERS)[i];
      }
    }
  }

  /** Each slot of a filled template holds the frame given for it. */
  lemma FillAt(s: Slots)
    ensures Fill(s)[3] == s.brightness0 && Fill(s)[10] == s.brightness1 && Fill(s)[11] == s.shared
    ensures Fill(s)[43] == s.repeat && Fill(s)[44] == s.interval && Fill(s)[45] == s.continuous
  {
  }
}
