/** The earlier front end of the tool (`regdear-a15`): the same options,
    templates and patches as the main program, but its subcommands carry no
    options of their own, `reset` takes a flag and sends nothing, and a
    command line without options panics. `apply_command` records a
    subcommand in a `MouseConfig`. */
module A15 {
  import opened Wrappers
  import opened HexCodec
  import opened Settings
  import opened Template
  import opened Selection
  import Pipeline

  datatype Command =
    | Dpi(dpiVal: DpiVal)
    | Led(mode: LedMode)
    | LedStatus(state: Settings.LedStatus)
    | Reset(flag: bool)

  /** The parsed command line. */
  datatype MouseArgs = MouseArgs(
    fireControl: Option<FireControl>,
    movingSpeed: Option<byte>,
    doubleClickSpeed: Option<byte>,
    rollingSpeed: Option<byte>,
    ledArgs: Option<LedArgs>,
    command: Option<Command>)

  /** `apply_command`: the subcommand overwrites the one setting it names
      and keeps every other field of the configuration. */
  function ApplyCommand(config: MouseConfig, cmd: Command): (r: MouseConfig)
    ensures r.(dpi := config.dpi, ledMode := config.ledMode, ledStatus := config.ledStatus, reset := config.reset) == config
    ensures cmd.Dpi? ==> r.dpi == cmd.dpiVal
    ensures cmd.Led? ==> r.ledMode == cmd.mode
    ensures cmd.LedStatus? ==> r.ledStatus == cmd.state
    ensures cmd.Reset? ==> r.reset == cmd.flag
    ensures !cmd.Dpi? ==> r.dpi == config.dpi
    ensures !cmd.Led? ==> r.ledMode == config.ledMode
    ensures !cmd.LedStatus? ==> r.ledStatus == config.ledStatus
    ensures !cmd.Reset? ==> r.reset == config.reset
  {
    match cmd
    case Dpi(d) => config.(dpi := d)
    case Led(m) => config.(ledMode := m)
    case LedStatus(st) => config.(ledStatus := st)
    case Reset(b) => config.(reset := b)
  }

  /** Which setting a subcommand names. */
  function Kind(cmd: Command): nat {
    match cmd
    case Dpi(_) => 0
    case Led(_) => 1
    case LedStatus(_) => 2
    case Reset(_) => 3
  }

  /** Options shared with the main program, all absent. */
  const NO_OPTIONS: Pipeline.GlobalMouseOptions := Pipeline.GlobalMouseOptions(None, None, None, None, None)

  /** The main program's subcommand with the same effect. */
  function AsMainCommand(cmd: Command): Pipeline.Command
    requires !cmd.Reset?
  {
    match cmd
    case Dpi(d) => Pipeline.Command.Dpi(NO_OPTIONS, d)
    case Led(m) => Pipeline.Command.Led(NO_OPTIONS, m)
    case LedStatus(st) => Pipeline.Command.LedStatus(NO_OPTIONS, st)
  }

  /** The main program's command line with the same options. */
  function AsMainArgs(args: MouseArgs): Pipeline.MouseArgs
    requires !(args.command.Some? && args.command.value.Reset?)
  {
    Pipeline.MouseArgs(args.fireControl, args.movingSpeed, args.doubleClickSpeed, args.rollingSpeed, args.ledArgs,
                       if args.command.Some? then Some(AsMainCommand(args.command.value)) else None)
  }

  /** The frame list `main` chooses. Apart from `reset`, whose arm is the
      catch-all `_ => Vec::new()`, every branch is the main program's: the
      chain of patches, the fire-control and LED-only requests, `todo!()`
      for the speed options and `panic!` without options. */
  function SelectFrames(args: MouseArgs, repeat: byte, interval: byte): (r: Result<seq<string>, Pipeline.MainError>)
    ensures r.Err? <==> args.command.None? && args.fireControl.None? && args.ledArgs.None?
    ensures r == Err(Pipeline.NoArgs) <==> args == MouseArgs(None, None, None, None, None, None)
    ensures args.command.Some? && args.command.value.Reset? ==> r == Ok([])
  {
    if args.command.Some? && args.command.value.Reset? then Ok([])
    else Pipeline.SelectFrames(AsMainArgs(args), repeat, interval)
  }

  /** `main`, repeat and interval resolved with `unwrap_or_default`. */
  function MainFrames(args: MouseArgs): Result<seq<string>, Pipeline.MainError> {
    SelectFrames(args, RepeatSetting(args.fireControl), IntervalSetting(args.fireControl))
  }

  /** The packets `main` hands to the device. */
  function Main(args: MouseArgs): Result<seq<seq<byte>>, Pipeline.MainError> {
    match MainFrames(args)
    case Err(e) => Err(e)
    case Ok(frames) =>
      match Packets(frames)
      case Some(packets) => Ok(packets)
      case None => Err(Pipeline.InvalidHex)
  }

  // ------------------------------------------------------------ lemmas

  /** Applying a subcommand twice is applying it once. */
  lemma ApplyCommandIdempotent(config: MouseConfig, cmd: Command)
    ensures ApplyCommand(ApplyCommand(config, cmd), cmd) == ApplyCommand(config, cmd)
  {
  }

  /** Subcommands of different kinds touch different settings, so their
      order does not matter. */
  lemma ApplyCommandCommutes(config: MouseConfig, a: Command, b: Command)
    requires Kind(a) != Kind(b)
    ensures ApplyCommand(ApplyCommand(config, a), b) == ApplyCommand(ApplyCommand(config, b), a)
  {
  }

  /** Whatever `main` selects is a list of well-formed frames: the whole
      48-frame template, or nothing exactly for `reset`, for fire-control
      options that set nothing, and for LED options without a breathing
      speed. */
  lemma SelectFramesWellFormed(args: MouseArgs, repeat: byte, interval: byte)
    ensures SelectFrames(args, repeat, interval).Ok? ==>
              WellFormed(SelectFrames(args, repeat, interval).value) &&
              (|SelectFrames(args, repeat, interval).value| == 48 || |SelectFrames(args, repeat, interval).value| == 0)
    ensures SelectFrames(args, repeat, interval).Ok? && |SelectFrames(args, repeat, interval).value| == 0 <==>
              (args.command.Some? && args.command.value.Reset?) ||
              (args.command.None? &&
               (args.fireControl == Some(FireControl(None, None, None)) ||
                (args.fireControl.None? && args.ledArgs.Some? && args.ledArgs.value.breathingSpeed.None?)))
  {
    if !(args.command.Some? && args.command.value.Reset?) {
      Pipeline.SelectFramesWellFormed(AsMainArgs(args), repeat, interval);
    }
  }

  /** Every selected frame becomes an eight-byte packet, one for one. */
  lemma MainPackets(args: MouseArgs)
    ensures Main(args).Ok? <==> MainFrames(args).Ok?
    ensures Main(args) != Err(Pipeline.InvalidHex)
    ensures Main(args).Ok? ==>
              |Main(args).value| == |MainFrames(args).value| &&
              forall k | 0 <= k < |Main(args).value| ::
                |Main(args).value[k]| == 8 && Some(Main(args).value[k]) == ConvertStrHex(MainFrames(args).value[k])
  {
    SelectFramesWellFormed(args, RepeatSetting(args.fireControl), IntervalSetting(args.fireControl));
    if MainFrames(args).Ok? {
      PacketsOfWellFormed(MainFrames(args).value);
    }
  }

  /** `dpi` with no other option: the template with the level's frame in
      the shared slot and the default interval 6, as in the main program. */
  lemma DpiCommandDefaults(dpi: DpiVal)
    ensures MainFrames(MouseArgs(None, None, None, None, None, Some(Command.Dpi(dpi)))) ==
              Ok(COMMON_HEX[11 := dpi.Hex()][44 := "040721fe06fc94ff"])
  {
    Pipeline.DpiCommandDefaults(NO_OPTIONS, dpi);
  }
}
