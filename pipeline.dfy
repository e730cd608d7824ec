/** Frame selection in `main` of `src/main.rs`: which patches are chained,
    from which base, for the parsed command line; the `reset` subcommand's
    fold over `reset_val()`; and the conversion of the chosen frames into
    packets. Parsing, printing and the device itself are outside the model:
    `main` here maps parsed arguments to the packets it would send. */
module Pipeline {
  import opened Wrappers
  import opened HexCodec
  import opened TextReplace
  import opened Settings
  import opened Patches
  import opened Template
  import opened Selection

  /** The options every subcommand accepts after its name. */
  datatype GlobalMouseOptions = GlobalMouseOptions(
    fireControl: Option<FireControl>,
    movingSpeed: Option<byte>,
    doubleClickSpeed: Option<byte>,
    rollingSpeed: Option<byte>,
    ledArgs: Option<LedArgs>)

  datatype Command =
    | Dpi(opts: GlobalMouseOptions, dpiVal: DpiVal)
    | Led(opts: GlobalMouseOptions, mode: LedMode)
    | LedStatus(opts: GlobalMouseOptions, state: Settings.LedStatus)
    | Reset

  /** The parsed command line. */
  datatype MouseArgs = MouseArgs(
    fireControl: Option<FireControl>,
    movingSpeed: Option<byte>,
    doubleClickSpeed: Option<byte>,
    rollingSpeed: Option<byte>,
    ledArgs: Option<LedArgs>,
    command: Option<Command>)

  /** How `main` ends without sending anything: a speed option reaches
      `todo!()`, no option at all reaches `exit(1)`, or a frame fails to
      parse and `convert_str_hex` panics. */
  datatype MainError = Unimplemented | NoArgs | InvalidHex

  // ------------------------------------------------------------- main

  /** The frame the DPI, LED and LED-status subcommands write. */
  function CommandHex(cmd: Command): string
    requires !cmd.Reset?
  {
    match cmd
    case Dpi(_, d) => d.Hex()
    case Led(_, m) => m.Hex()
    case LedStatus(_, st) => st.Hex()
  }

  /** The frame list `main` chooses, given the repeat and interval values
      it resolved from the fire-control options. A subcommand patches the
      base list (its own options are ignored); otherwise fire-control
      options, then LED options, are served from `COMMON_HEX`; a speed
      option alone reaches `todo!()` and no option at all exits. */
  function SelectFrames(args: MouseArgs, repeat: byte, interval: byte): (r: Result<seq<string>, MainError>)
    ensures r.Err? <==> args.command.None? && args.fireControl.None? && args.ledArgs.None?
    ensures r == Err(NoArgs) <==>
              args == MouseArgs(None, None, None, None, None, None)
  {
    var base := BaseFrames(repeat, interval, BrightnessSetting(args.ledArgs), BreathingSetting(args.ledArgs));
    if args.command.Some? then
      match args.command.value
      case Dpi(_, d) => Ok(PatchDpi(d, base))
      case Led(_, m) => Ok(PatchLed(m.Hex(), base))
      case LedStatus(_, st) => Ok(PatchLed(st.Hex(), base))
      case Reset => Ok(ResetFrames(RESET_VALUES))
    else if args.fireControl.Some? then
      Ok(FireControlFrames(args.fireControl.value, PatchRepeat(repeat, COMMON_HEX)))
    else if args.ledArgs.Some? then
      Ok(LedArgsFrames(args.ledArgs.value))
    else if args.movingSpeed.Some? || args.doubleClickSpeed.Some? || args.rollingSpeed.Some? then
      Err(Unimplemented)
    else
      Err(NoArgs)
  }

  /** `main` with repeat and interval resolved with `unwrap_or_default`,
      as written. The breathing-speed frames are those of the corrected
      table (`BreathingSpeed.Hex`), so `--breathing-speed bs5` writes the
      16-digit entry; the 17-digit entry as written is modelled by
      `PatchBreathingAsWritten`. */
  function MainFrames(args: MouseArgs): Result<seq<string>, MainError> {
    SelectFrames(args, RepeatSetting(args.fireControl), IntervalSetting(args.fireControl))
  }

  /** `main` with repeat and interval falling back to their documented
      defaults, 3 and 6. */
  function MainFramesCorrected(args: MouseArgs): Result<seq<string>, MainError> {
    SelectFrames(args, RepeatSettingCorrected(args.fireControl), IntervalSettingCorrected(args.fireControl))
  }

  /** The packets `main` hands to the device: every chosen frame through
      `convert_str_hex`. */
  function Main(args: MouseArgs): Result<seq<seq<byte>>, MainError> {
    match MainFrames(args)
    case Err(e) => Err(e)
    case Ok(frames) =>
      match Packets(frames)
      case Some(packets) => Ok(packets)
      case None => Err(InvalidHex)
  }

  // ------------------------------------------------------------- reset

  /** One entry of `reset_val()` (the source's `Reset` enum). */
  datatype ResetValue =
    | ResetRepeat(repeat: byte)
    | ResetInterval(interval: byte)
    | ResetContinously(continously: ContinouslyState)
    | ResetDpi(dpi: DpiVal)
    | ResetLedStatus(status: Settings.LedStatus)
    | ResetBrightness(brightness: LedBrightness)
    | ResetLedMode(mode: LedMode)
    | ResetBreathing(speed: BreathingSpeed)

  /** `reset_val()`. */
  const RESET_VALUES: seq<ResetValue> := [
    ResetRepeat(3),
    ResetInterval(6),
    ResetContinously(ContinouslyState.Disable),
    ResetDpi(DpiVal.DPI6),
    ResetLedStatus(Settings.LedStatus.Enable),
    ResetBrightness(LedBrightness.All),
    ResetLedMode(LedMode.Multi),
    ResetBreathing(BreathingSpeed.BS6)
  ]

  /** One step of the reset loop. A repeat entry starts over from
      `COMMON_HEX`; every other entry patches the frames so far. */
  function ApplyReset(frames: seq<string>, val: ResetValue): seq<string> {
    match val
    case ResetRepeat(v) => PatchRepeat(v, COMMON_HEX)
    case ResetInterval(v) => PatchInterval(v, frames)
    case ResetContinously(c) => PatchContinuous(c, frames)
    case ResetDpi(d) => PatchDpi(d, frames)
    case ResetLedStatus(st) => PatchLed(st.Hex(), frames)
    case ResetBrightness(b) => PatchBrightness(b, frames)
    case ResetLedMode(m) => PatchLed(m.Hex(), frames)
    case ResetBreathing(bs) => PatchBreathing(bs, frames)
  }

  /** The reset loop over `vals`, from an empty frame list, in order. */
  function ResetFrames(vals: seq<ResetValue>): seq<string>
    decreases |vals|
  {
    if |vals| == 0 then [] else ApplyReset(ResetFrames(vals[..|vals| - 1]), vals[|vals| - 1])
  }

  /** The frames `reset` sends: the template with DPI6 in the shared slot,
      interval 6 and continuous fire disabled. */
  const RESET_SLOTS: Slots := RESET_HEAD_SLOTS.(shared := DPI6_HEX)

  /** The slots after the repeat, interval and continuous entries. */
  const RESET_HEAD_SLOTS: Slots := PLACEHOLDERS.(interval := IntervalFrame(6), continuous := CONTINOUUSLY_DISABLED)

  /** The reset loop of `main`, one entry of `reset_val()` at a time. */
  method RunReset() returns (frames: seq<string>)
    ensures frames == ResetFrames(RESET_VALUES)
    ensures frames == Fill(RESET_SLOTS)
    ensures frames == COMMON_HEX[11 := "040705fd817e807f"][44 := "040721fe06fc94ff"][45 := "0407fdfffffc1bff"]
  {
    var vals := RESET_VALUES;
    frames := [];
    for i := 0 to |vals|
      invariant frames == ResetFrames(vals[..i])
    {
      assert vals[..i + 1][..i] == vals[..i];
      frames := ApplyReset(frames, vals[i]);
    }
    assert vals[..|vals|] == vals;
    ResetSlots();
    ResetAsUpdates();
  }

  /** The entries of `reset_val()`, stated one by one so that the proofs
      below can follow the loop without evaluating it. */
  predicate IsResetList(vals: seq<ResetValue>) {
    |vals| == 8 &&
    vals[0] == ResetRepeat(3) && vals[1] == ResetInterval(6) &&
    vals[2] == ResetContinously(ContinouslyState.Disable) && vals[3] == ResetDpi(DpiVal.DPI6) &&
    vals[4] == ResetLedStatus(Settings.LedStatus.Enable) && vals[5] == ResetBrightness(LedBrightness.All) &&
    vals[6] == ResetLedMode(LedMode.Multi) && vals[7] == ResetBreathing(BreathingSpeed.BS6)
  }

  lemma ResetStep(vals: seq<ResetValue>, k: nat)
    requires k < |vals|
    ensures ResetFrames(vals[..k + 1]) == ApplyReset(ResetFrames(vals[..k]), vals[k])
  {
    assert vals[..k + 1][..k] == vals[..k];
  }

  /** The repeat entry, 3, restores the template. */
  lemma ResetAfterRepeat(vals: seq<ResetValue>)
    requires IsResetList(vals)
    ensures ResetFrames(vals[..1]) == Fill(PLACEHOLDERS)
  {
    ResetStep(vals, 0);
    DefaultRepeatIsIdentity(COMMON_HEX);
    FillPlaceholders();
  }

  /** Interval 6 fills the interval slot. */
  lemma ResetAfterInterval(vals: seq<ResetValue>)
    requires IsResetList(vals)
    ensures ResetFrames(vals[..2]) == Fill(PLACEHOLDERS.(interval := IntervalFrame(6)))
  {
    ResetAfterRepeat(vals);
    ResetStep(vals, 1);
    PlaceholdersKinded();
    IntervalOnFill(6, PLACEHOLDERS);
  }

  /** Continuous Disable fills the continuous slot. */
  lemma ResetAfterContinously(vals: seq<ResetValue>)
    requires IsResetList(vals)
    ensures ResetFrames(vals[..3]) == Fill(RESET_HEAD_SLOTS)
  {
    ResetAfterInterval(vals);
    ResetSlotsKinded();
    ResetContinouslyStep(vals, PLACEHOLDERS.(interval := IntervalFrame(6)));
  }

  lemma ResetContinouslyStep(vals: seq<ResetValue>, s: Slots)
    requires IsResetList(vals) && Kinded(s) && s.continuous == CONTINUOUS_PLACEHOLDER
    requires ResetFrames(vals[..2]) == Fill(s)
    ensures ResetFrames(vals[..3]) == Fill(s.(continuous := CONTINOUUSLY_DISABLED))
  {
    ResetStep(vals, 2);
    ContinuousOnFill(ContinouslyState.Disable, s);
  }

  /** DPI6 takes the shared slot: after the first four entries of
      `reset_val()` the frames are final. */
  lemma ResetAfterDpi(vals: seq<ResetValue>)
    requires IsResetList(vals)
    ensures ResetFrames(vals[..4]) == Fill(RESET_SLOTS)
  {
    ResetAfterContinously(vals);
    ResetSlotsKinded();
    ResetDpiLiterals();
    ResetDpiStep(vals, RESET_HEAD_SLOTS, DPI6_HEX);
  }

  lemma ResetDpiStep(vals: seq<ResetValue>, s: Slots, hex: string)
    requires IsResetList(vals) && Kinded(s) && s.shared == SHARED_PLACEHOLDER
    requires ResetFrames(vals[..3]) == Fill(s) && hex == DpiVal.DPI6.Hex()
    ensures ResetFrames(vals[..4]) == Fill(s.(shared := hex))
  {
    ResetStep(vals, 3);
    SharedOnFill(hex, s);
  }

  lemma ResetSlotsKinded()
    ensures Kinded(PLACEHOLDERS.(interval := IntervalFrame(6)))
    ensures Kinded(RESET_HEAD_SLOTS) && RESET_HEAD_SLOTS.shared == SHARED_PLACEHOLDER
    ensures Kinded(RESET_SLOTS) && RESET_SLOTS.shared != SHARED_PLACEHOLDER
  {
    PlaceholdersKinded();
    ByteFramesTagged(6);
    ResetValuesTagged();
    FillKindedUpdates(PLACEHOLDERS, IntervalFrame(6), CONTINOUUSLY_DISABLED, DPI6_HEX);
  }

  lemma ResetValuesTagged()
    ensures Tagged(CONTINOUUSLY_DISABLED, 'f', 'd') && SharedTagged(DPI6_HEX) && DPI6_HEX != SHARED_PLACEHOLDER
  {
  }

  /** Once DPI6 holds the shared slot, the remaining LED status, brightness,
      LED mode and breathing entries of `reset_val()` change nothing. */
  lemma ResetTailIsIdentity(vals: seq<ResetValue>)
    requires IsResetList(vals)
    ensures ResetFrames(vals) == ResetFrames(vals[..4])
  {
    ResetAfterDpi(vals);
    ResetSlotsKinded();
    ResetTailFrom(vals, 4, RESET_SLOTS);
  }

  /** From the `k`-th entry on, frames whose shared slot no longer holds
      its placeholder stay as they are. */
  lemma {:induction false} ResetTailFrom(vals: seq<ResetValue>, k: nat, s: Slots)
    requires IsResetList(vals) && 4 <= k <= 8 && Kinded(s) && s.shared != SHARED_PLACEHOLDER
    requires ResetFrames(vals[..k]) == Fill(s)
    ensures ResetFrames(vals) == Fill(s)
    decreases 8 - k
  {
    if k < 8 {
      ResetTailStep(vals, k, s);
      ResetTailFrom(vals, k + 1, s);
    } else {
      assert vals[..k] == vals;
    }
  }

  lemma ResetTailStep(vals: seq<ResetValue>, k: nat, s: Slots)
    requires IsResetList(vals) && 4 <= k < 8 && Kinded(s) && s.shared != SHARED_PLACEHOLDER
    requires ResetFrames(vals[..k]) == Fill(s)
    ensures ResetFrames(vals[..k + 1]) == Fill(s)
  {
    ResetStep(vals, k);
    TailEntryKinds(vals, k);
    ResetTailEntry(vals[k], s);
  }

  lemma TailEntryKinds(vals: seq<ResetValue>, k: nat)
    requires IsResetList(vals) && 4 <= k < 8
    ensures vals[k].ResetLedStatus? || vals[k].ResetLedMode? || vals[k].ResetBreathing? ||
            vals[k] == ResetBrightness(LedBrightness.All)
  {
  }

  /** An LED status, LED mode or breathing entry finds no shared
      placeholder left, and brightness `All` puts back what it finds. */
  lemma ResetTailEntry(v: ResetValue, s: Slots)
    requires v.ResetLedStatus? || v.ResetLedMode? || v.ResetBreathing? || v == ResetBrightness(LedBrightness.All)
    requires Kinded(s) && s.shared != SHARED_PLACEHOLDER
    ensures ApplyReset(Fill(s), v) == Fill(s)
  {
    match v
    case ResetBrightness(_) =>
      BrightnessAllIsIdentity(Fill(s));
    case ResetLedStatus(st) =>
      SharedOnFill(st.Hex(), s);
    case ResetLedMode(m) =>
      SharedOnFill(m.Hex(), s);
    case ResetBreathing(bs) =>
      SharedOnFill(bs.Hex(), s);
  }

  /** `reset_val()` folds to the reset slots. */
  lemma ResetSlots()
    ensures ResetFrames(RESET_VALUES) == Fill(RESET_SLOTS)
  {
    assert IsResetList(RESET_VALUES);
    ResetAfterDpi(RESET_VALUES);
    ResetTailIsIdentity(RESET_VALUES);
  }

  /** The reset frames as three updates of `COMMON_HEX`. */
  lemma ResetAsUpdates()
    ensures Fill(RESET_SLOTS) == COMMON_HEX[11 := "040705fd817e807f"][44 := "040721fe06fc94ff"][45 := "0407fdfffffc1bff"]
  {
    ResetSlotsLiteral();
    FillUpdates("040705fd817e807f", "040721fe06fc94ff", "0407fdfffffc1bff");
  }

  // ------------------------------------------------------ main: lemmas

  /** The slots a DPI, LED or LED-status subcommand leaves: those of the
      base list, with the command's frame in the shared slot only while
      the breathing speed left it at the placeholder (BS4). */
  function CommandSlots(args: MouseArgs, repeat: byte, interval: byte): Slots
    requires args.command.Some? && !args.command.value.Reset?
  {
    var speed := BreathingSetting(args.ledArgs);
    BaseSlots(repeat, interval, BrightnessSetting(args.ledArgs), speed)
      .(shared := if speed == BreathingSpeed.BS4 then CommandHex(args.command.value) else speed.Hex())
  }

  /** A DPI, LED or LED-status subcommand fills the template with the slots
      of the base list, its own frame taking the shared slot only while the
      resolved breathing speed is BS4 (the default, used whenever a
      brightness is given or no speed is): any other speed wins and the
      command's frame is lost. The subcommand's own options play no part. */
  lemma CommandFramesFill(args: MouseArgs, repeat: byte, interval: byte)
    requires args.command.Some? && !args.command.value.Reset?
    ensures SelectFrames(args, repeat, interval) == Ok(Fill(CommandSlots(args, repeat, interval)))
  {
    var b := BrightnessSetting(args.ledArgs);
    var bs := BreathingSetting(args.ledArgs);
    BaseFramesFill(repeat, interval, b, bs);
    SharedEncodings();
    SharedOnFill(CommandHex(args.command.value), BaseSlots(repeat, interval, b, bs));
  }

  /** `reset` ignores every option and sends the reset frames. */
  lemma ResetCommandFrames(args: MouseArgs, repeat: byte, interval: byte)
    requires args.command == Some(Reset)
    ensures SelectFrames(args, repeat, interval) ==
              Ok(COMMON_HEX[11 := "040705fd817e807f"][44 := "040721fe06fc94ff"][45 := "0407fdfffffc1bff"])
  {
    ResetSlots();
    ResetAsUpdates();
  }

  /** `dpi` with no other option: the template with the level's frame in
      the shared slot and the default interval 6. */
  lemma DpiCommandDefaults(opts: GlobalMouseOptions, dpi: DpiVal)
    ensures MainFrames(MouseArgs(None, None, None, None, None, Some(Command.Dpi(opts, dpi)))) ==
              Ok(COMMON_HEX[11 := dpi.Hex()][44 := "040721fe06fc94ff"])
  {
    var args := MouseArgs(None, None, None, None, None, Some(Command.Dpi(opts, dpi)));
    CommandFramesFill(args, 3, 6);
    DpiDefaultSlots(opts, dpi);
    IntervalFrameOfSix();
    FillSharedInterval(dpi.Hex(), "040721fe06fc94ff");
  }

  /** The slots `dpi` leaves when no other option is given. */
  lemma DpiDefaultSlots(opts: GlobalMouseOptions, dpi: DpiVal)
    ensures CommandSlots(MouseArgs(None, None, None, None, None, Some(Command.Dpi(opts, dpi))), 3, 6)
            == PLACEHOLDERS.(shared := dpi.Hex(), interval := IntervalFrame(6))
  {
    RepeatFrameOfThree();
  }

  /** With a breathing speed other than BS4 and no brightness on the
      command line, a DPI, LED or LED-status subcommand sends the base list
      unchanged: the breathing macro has already taken the shared slot. */
  lemma CommandLostUnderBreathing(args: MouseArgs, repeat: byte, interval: byte, speed: BreathingSpeed)
    requires args.command.Some? && !args.command.value.Reset?
    requires args.ledArgs == Some(LedArgs(None, Some(speed))) && speed != BreathingSpeed.BS4
    ensures SelectFrames(args, repeat, interval) == Ok(BaseFrames(repeat, interval, LedBrightness.All, speed))
    ensures SelectFrames(args, repeat, interval).value[11] == speed.Hex()
  {
    var slots := BaseSlots(repeat, interval, LedBrightness.All, speed);
    CommandFramesFill(args, repeat, interval);
    assert CommandSlots(args, repeat, interval) == slots;
    BaseFramesFill(repeat, interval, LedBrightness.All, speed);
    FillAt(slots);
  }

  /** Without a subcommand, a given `--repeat` or `--firing-interval`
      takes the match before `--continously`, which is then ignored. */
  lemma RepeatWinsOverContinuous(args: MouseArgs, repeat: byte, interval: byte, r: byte)
    requires args.command.None? && args.fireControl.Some?
    requires args.fireControl.value.repeat == Some(r) && args.fireControl.value.firingInterval.None?
    ensures SelectFrames(args, repeat, interval) == Ok(Fill(PLACEHOLDERS.(repeat := RepeatFrame(r))))
  {
    FireControlFramesFill(args.fireControl.value, repeat);
  }

  /** As written, `--continously` alone patches a repeat frame built from
      repeat 0, so enabling continuous fire never writes the disabled
      repeat frame: the repeat slot reads `00`. */
  lemma ContinuousAloneAsWritten(args: MouseArgs, state: ContinouslyState)
    requires args.command.None? && args.fireControl == Some(FireControl(None, None, Some(state)))
    ensures MainFrames(args) == Ok(Fill(PLACEHOLDERS.(repeat := "04070afd00a1fe03", continuous := state.Hex())))
  {
    FireControlFramesFill(args.fireControl.value, 0);
    RepeatFrameOfZero();
  }

  /** With the default repeat 3, `--continously Enable` alone writes the
      disabled repeat frame, as the continuous-fire patch intends. */
  lemma ContinuousAloneCorrected(args: MouseArgs, state: ContinouslyState)
    requires args.command.None? && args.fireControl == Some(FireControl(None, None, Some(state)))
    ensures MainFramesCorrected(args) ==
              Ok(Fill(PLACEHOLDERS.(repeat := if state == ContinouslyState.Enable then REPEAT_DISABLED
                                              else REPEAT_PLACEHOLDER,
                                    continuous := state.Hex())))
  {
    FireControlFramesFill(args.fireControl.value, 3);
    RepeatFrameOfThree();
  }

  /** As written, `--repeat` given with a subcommand resolves the interval
      to 0; with the documented default it would be 6. */
  lemma RepeatWithCommandInterval(args: MouseArgs, r: byte)
    requires args.command.Some? && !args.command.value.Reset?
    requires args.fireControl == Some(FireControl(Some(r), None, None))
    ensures MainFrames(args).Ok? && MainFrames(args).value[44] == "040721fe00fc94ff"
    ensures MainFramesCorrected(args).Ok? && MainFramesCorrected(args).value[44] == "040721fe06fc94ff"
  {
    CommandFramesFill(args, r, 0);
    CommandFramesFill(args, r, 6);
    FillAt(CommandSlots(args, r, 0));
    FillAt(CommandSlots(args, r, 6));
    IntervalFrameOfZero();
    IntervalFrameOfSix();
  }

  /** Without a subcommand or fire-control options, the LED options send
      the template with the breathing speed in the shared slot, or nothing
      at all when they name no breathing speed (a brightness alone is
      dropped). */
  lemma LedOnlyFrames(args: MouseArgs, repeat: byte, interval: byte)
    requires args.command.None? && args.fireControl.None? && args.ledArgs.Some?
    ensures args.ledArgs.value.breathingSpeed.Some? ==>
              SelectFrames(args, repeat, interval) ==
              Ok(Fill(PLACEHOLDERS.(shared := args.ledArgs.value.breathingSpeed.value.Hex())))
    ensures args.ledArgs.value.breathingSpeed.None? ==> SelectFrames(args, repeat, interval) == Ok([])
  {
    LedArgsFramesFill(args.ledArgs.value);
  }

  /** The reset slots hold well-formed frames. */
  lemma ResetSlotsAreFrames()
    ensures SlotsAreFrames(RESET_SLOTS)
  {
    ResetSlotsLiteral();
    PlaceholdersKinded();
    ResetLiteralsAreFrames();
  }

  /** A subcommand sends the whole template, every frame well-formed. */
  lemma CommandFramesWellFormed(args: MouseArgs, repeat: byte, interval: byte)
    requires args.command.Some?
    ensures SelectFrames(args, repeat, interval).Ok?
    ensures WellFormed(SelectFrames(args, repeat, interval).value)
    ensures |SelectFrames(args, repeat, interval).value| == 48
  {
    if args.command.value.Reset? {
      ResetFramesWellFormed();
    } else {
      CommandSlotsAreFrames(args, repeat, interval);
      CommandFramesFill(args, repeat, interval);
      FillWidth(CommandSlots(args, repeat, interval));
    }
  }

  /** The reset frames are 48 well-formed frames. */
  lemma ResetFramesWellFormed()
    ensures WellFormed(ResetFrames(RESET_VALUES)) && |ResetFrames(RESET_VALUES)| == 48
  {
    ResetSlots();
    ResetSlotsAreFrames();
    FillWidth(RESET_SLOTS);
  }

  /** The slots a subcommand leaves hold well-formed frames. */
  lemma CommandSlotsAreFrames(args: MouseArgs, repeat: byte, interval: byte)
    requires args.command.Some? && !args.command.value.Reset?
    ensures SlotsAreFrames(CommandSlots(args, repeat, interval))
  {
    BaseSlotsAreFrames(repeat, interval, BrightnessSetting(args.ledArgs), BreathingSetting(args.ledArgs));
    CommandHexIsFrame(args.command.value);
  }

  lemma CommandHexIsFrame(cmd: Command)
    requires !cmd.Reset?
    ensures IsFrame(CommandHex(cmd))
  {
    match cmd
    case Dpi(_, _) => DpiFrames();
    case Led(_, _) => LedModeFrames();
    case LedStatus(_, _) => OtherFrames();
  }

  /** A fire-control request sends the whole template, every frame
      well-formed, or nothing when it sets no option. */
  lemma FireControlFramesWellFormed(fc: FireControl, repeat: byte)
    ensures WellFormed(FireControlFrames(fc, PatchRepeat(repeat, COMMON_HEX)))
    ensures |FireControlFrames(fc, PatchRepeat(repeat, COMMON_HEX))| == 0 <==> fc == FireControl(None, None, None)
    ensures fc != FireControl(None, None, None) ==> |FireControlFrames(fc, PatchRepeat(repeat, COMMON_HEX))| == 48
  {
    FireControlFramesFill(fc, repeat);
    PlaceholdersKinded();
    var s0 := PLACEHOLDERS;
    match fc
    case FireControl(Some(r), None, _) =>
      ByteFramesAreFrames(r);
      FillWidth(s0.(repeat := RepeatFrame(r)));
    case FireControl(None, Some(i), _) =>
      ByteFramesAreFrames(i);
      FillWidth(s0.(interval := IntervalFrame(i)));
    case FireControl(Some(r), Some(i), _) =>
      ByteFramesAreFrames(r);
      ByteFramesAreFrames(i);
      FillWidth(s0.(repeat := RepeatFrame(r), interval := IntervalFrame(i)));
    case FireControl(None, None, Some(c)) =>
      ByteFramesAreFrames(repeat);
      RepeatDisabledIsFrame();
      OtherFrames();
      FillWidth(s0.(repeat := if c == ContinouslyState.Enable && repeat == 3 then REPEAT_DISABLED else RepeatFrame(repeat),
                    continuous := c.Hex()));
    case FireControl(None, None, None) =>
  }

  /** An LED-only request sends the whole template, every frame
      well-formed, or nothing when it names no breathing speed. */
  lemma LedArgsFramesWellFormed(led: LedArgs)
    ensures WellFormed(LedArgsFrames(led))
    ensures |LedArgsFrames(led)| == 0 <==> led.breathingSpeed.None?
    ensures led.breathingSpeed.Some? ==> |LedArgsFrames(led)| == 48
  {
    LedArgsFramesFill(led);
    if led.breathingSpeed.Some? {
      PlaceholdersKinded();
      BreathingSpeedFrames();
      FillWidth(PLACEHOLDERS.(shared := led.breathingSpeed.value.Hex()));
    }
  }

  /** Whatever `main` selects is a list of well-formed frames: the whole
      48-frame template, or nothing exactly when no subcommand is given and
      the fire-control options set nothing, or there are no fire-control
      options and the LED options name no breathing speed. */
  lemma SelectFramesWellFormed(args: MouseArgs, repeat: byte, interval: byte)
    ensures SelectFrames(args, repeat, interval).Ok? ==>
              WellFormed(SelectFrames(args, repeat, interval).value) &&
              (|SelectFrames(args, repeat, interval).value| == 48 || |SelectFrames(args, repeat, interval).value| == 0)
    ensures SelectFrames(args, repeat, interval).Ok? && |SelectFrames(args, repeat, interval).value| == 0 <==>
              args.command.None? &&
              (args.fireControl == Some(FireControl(None, None, None)) ||
               (args.fireControl.None? && args.ledArgs.Some? && args.ledArgs.value.breathingSpeed.None?))
  {
    if args.command.Some? {
      CommandFramesWellFormed(args, repeat, interval);
    } else if args.fireControl.Some? {
      FireControlFramesWellFormed(args.fireControl.value, repeat);
    } else if args.ledArgs.Some? {
      LedArgsFramesWellFormed(args.ledArgs.value);
    }
  }

  /** `main` never fails on a frame it built: every selected frame becomes
      an eight-byte packet, and the packets follow the frames one for one. */
  lemma MainPackets(args: MouseArgs)
    ensures Main(args).Ok? <==> MainFrames(args).Ok?
    ensures Main(args) != Err(InvalidHex)
    ensures Main(args).Ok? ==>
              |Main(args).value| == |MainFrames(args).value| &&
              forall k | 0 <= k < |Main(args).value| ::
                |Main(args).value[k]| == 8 && Some(Main(args).value[k]) == ConvertStrHex(MainFrames(args).value[k])
  {
    SelectFramesWellFormed(args, RepeatSetting(args.fireControl), IntervalSetting(args.fireControl));
    if MainFrames(args).Ok? {
      PacketsOfWellFormed(MainFrames(args).value);
    }
  }

  // ---------------------------------------------------- literal facts
  // One-fact lemmas about constants, kept apart so that the proofs above
  // reason about them symbolically; they state nothing about the tool.

  lemma ResetDpiLiterals()
    ensures DPI6_HEX == DpiVal.DPI6.Hex()
    ensures RESET_HEAD_SLOTS.(shared := DPI6_HEX) == RESET_SLOTS
  {
  }

  lemma ResetSlotsLiteral()
    ensures RESET_SLOTS == PLACEHOLDERS.(shared := "040705fd817e807f", interval := "040721fe06fc94ff",
                                         continuous := "0407fdfffffc1bff")
  {
    IntervalFrameOfSix();
  }

  lemma ResetLiteralsAreFrames()
    ensures IsFrame("040705fd817e807f") && IsFrame("040721fe06fc94ff") && IsFrame("0407fdfffffc1bff")
  {
  }
}
