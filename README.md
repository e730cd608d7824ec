# Redgear A-15 frame synthesis

A Dafny model of how the Redgear A-15 mouse configuration tool builds the
report packets it sends to the mouse. The tool starts from a fixed 48-frame
template (`COMMON_HEX`). Each frame is 16 hex digits, which is one 8-byte
HID feature report. The tool patches the template with a chain of
`str::replace` macros, one macro per setting:

- repeat count
- firing interval
- continuous fire
- DPI level
- LED mode
- LED on/off
- LED brightness
- breathing speed

Which chain runs depends on the command line: a subcommand, fire-control
options, or LED options. The chosen frames are then converted to bytes with
`convert_str_hex`.

There are two front ends, modelled separately:

- `src/main.rs` (modules `Pipeline` and below). Its subcommands carry the
  global options. Its `reset` folds the eight default settings of
  `reset_val()` into the template.
- `src/regdear-a15/src/main.rs` (module `A15`). Its subcommands have no
  options and `reset` sends nothing. `apply_command` records a subcommand in
  a `MouseConfig`. Its tables, macros and selection are otherwise the same
  as the main program's, so both front ends share the modules below.

Modules:

- `Wrappers`: `Option` and `Result`.
- `HexCodec`: `hex::encode` of one byte, `bytes_to_hex` and
  `convert_str_hex`. `convert_str_hex` parses two-character chunks with
  `u8::from_str_radix(_, 16)`, and a chunk that does not parse is `None`
  where the source panics.
- `TextReplace`: `str::replace` as a leftmost, non-overlapping scan, mapped
  over a frame list.
- `Settings`: the setting enums and their `hex()` encodings, the constant
  tables and `COMMON_HEX`, the `MouseConfig` record and its default.
- `Patches`: the seven patch macros and what each does to a frame list.
- `Template`: the template seen as six slots, frames 3, 10, 11, 43, 44 and
  45. The macros rewrite only those slots. Every macro run on a filled
  template is again a filled template.
- `Selection`: the settings `main` resolves from the options, the base
  chain, the fire-control and LED-only chains, and the packets.
- `Pipeline`: `main` of `src/main.rs`, with the `reset` fold as a loop.
- `A15`: `main` and `apply_command` of `src/regdear-a15/src/main.rs`.

The model follows the code where the code differs from the tool's
documented behaviour, with one exception. The BS5 entry of the
breathing-speed table is a 17-digit string, an evident typo. The rest of
the model uses the corrected 16-digit entry. The entry as written is
modelled separately (see Findings). Every statement below about `main`'s
frames and packets therefore holds with the corrected BS5 entry.

Where the model follows the code against the documentation:

- The subcommand branch of `main` never applies the continuous-fire option.
- The repeat and interval options fall back to 0, not to the documented
  defaults 3 and 6 (see Findings).
- The default configuration is not the unmodified template. Its firing
  interval is 6, while the template's interval frame holds 8.
- A DPI, LED-mode or LED-on/off subcommand has no effect when a breathing
  speed other than `BS4` is requested without a brightness. The breathing
  speed is only taken from the command line when no brightness is given.
  The breathing macro has already
  replaced the shared placeholder frame those macros search for
  (`Pipeline.CommandLostUnderBreathing`).

## Model

| member | source | states |
|---|---|---|
| HexCodec.DigitValue | src/main.rs:435-443 | a hex digit of either case, as `from_str_radix` reads it, has a value below 16 |
| HexCodec.LowerDigit | src/main.rs:331 | the lower-case digit `hex::encode` writes for a nibble reads back as that nibble |
| HexCodec.UpperDigit | src/main.rs:445-447 | the upper-case digit `{:02X}` writes for a nibble is not lower-case and reads back as that nibble |
| HexCodec.HexByte | src/main.rs:331 | `hex::encode` of a byte is two lower-case digits whose value is the byte |
| HexCodec.UpperPair | src/main.rs:445-447 | `format!("{:02X}", b)` is two upper-case hex digits whose value is the byte |
| HexCodec.BytesToHex | src/main.rs:445-447 | `bytes_to_hex` gives two upper-case hex digits per byte |
| HexCodec.ParseChunk | src/main.rs:438-441 | a chunk parses exactly when all its characters are hex digits, or it is a `+` followed by one hex digit |
| HexCodec.ConvertStrHex | src/main.rs:435-443 | when it succeeds, `convert_str_hex` gives one byte per two digits, rounding up |
| HexCodec.ConvertConcat | src/main.rs:435-443 | converting an even-length prefix and then the rest is converting the whole string |
| HexCodec.ConvertDigits | src/main.rs:435-443 | an even string of hex digits converts, and byte i is 16 times digit 2i plus digit 2i+1 |
| HexCodec.ConvertBytesToHex | src/main.rs:435-447 | `convert_str_hex` inverts `bytes_to_hex` on every byte sequence |
| TextReplace.Replace | src/main.rs:332 | a same-length replacement keeps the length, and a pattern longer than the text changes nothing |
| TextReplace.ReplaceSelf | src/main.rs:325-339 | replacing a pattern by itself leaves the text unchanged |
| TextReplace.Mismatch | src/main.rs:325-339 | a differing character rules out an occurrence at that position |
| TextReplace.ReplaceAbsent | src/main.rs:325-339 | a text without the pattern is unchanged |
| TextReplace.ReplaceOnce | src/main.rs:325-339 | a single occurrence at k is spliced out and the replacement put in its place |
| TextReplace.ReplaceWhole | src/main.rs:358-367 | on a text as long as the pattern, `replace` swaps the whole frame exactly when it equals the pattern |
| TextReplace.ReplaceAll | src/main.rs:358-367 | the mapped replace keeps the number of frames |
| TextReplace.ReplaceAllWhole | src/main.rs:358-367 | over frames of the pattern's width, each frame equal to the pattern becomes the replacement and every other frame is kept |
| TextReplace.ReplaceAllSelf | src/main.rs:358-367 | mapping a pattern onto itself is the identity |
| TextReplace.ReplaceAllIdempotent | src/main.rs:358-367 | a second run of the same whole-frame patch changes nothing |
| Settings.BreathingSpeed.Index | src/main.rs:491-503 | every breathing speed selects an entry of the eight-entry table |
| Settings.CommonHexWellFormed | src/main.rs:506-555 | every template frame is 16 lower-case hex digits |
| Settings.EncodersAreFrames | src/main.rs:176-300 | every setting's `hex()`, with the corrected BS5 entry, is a 16-digit frame |
| Settings.DpiFrames | src/main.rs:262-276 | every DPI level's frame is 16 hex digits |
| Settings.LedModeFrames | src/main.rs:288-300 | every LED mode's frame is 16 hex digits |
| Settings.BreathingSpeedFrames | src/main.rs:469-504 | every breathing speed's corrected frame is 16 hex digits |
| Settings.OtherFrames | src/main.rs:176-212 | the continuous-fire, LED on/off and brightness frames are 16 hex digits |
| Settings.BreathingSpeedTableAsWritten | src/main.rs:469-479 | entry BS5 of the table has 17 digits; every other entry is a frame and agrees with the corrected table |
| Patches.RepeatFrame | src/main.rs:325-339 | the repeat macro's new frame is the placeholder with the repeat byte's two digits at digits 8-9 |
| Patches.IntervalFrame | src/main.rs:341-356 | the interval macro's new frame is the placeholder with the interval byte's two digits at digits 8-9 |
| Patches.PatchBrightness | src/main.rs:383-396 | the brightness macro keeps the number of frames |
| Patches.PatchContinuous | src/main.rs:412-433 | the continuous-fire macro keeps the number of frames |
| Patches.RepeatPatchEffect | src/main.rs:325-339 | the repeat macro replaces exactly the frames equal to the repeat placeholder |
| Patches.IntervalPatchEffect | src/main.rs:341-356 | the interval macro replaces exactly the frames equal to the interval placeholder |
| Patches.LedPatchEffect | src/main.rs:358-367 | the LED macro replaces exactly the frames equal to the shared placeholder |
| Patches.DpiPatchEffect | src/main.rs:369-381 | the DPI macro replaces exactly the frames equal to the shared placeholder by the level's frame |
| Patches.BreathingPatchEffect | src/main.rs:398-410 | the breathing macro replaces exactly the frames equal to the shared placeholder by the speed's frame |
| Patches.BrightnessPatchEffect | src/main.rs:383-396 | the brightness macro replaces the first and second full-brightness frames by the chosen pair |
| Patches.ContinuousPatchEffect | src/main.rs:412-433 | enabling rewrites the repeat placeholder to repeat-disabled and the continuous placeholder to enabled; disabling rewrites only the continuous placeholder |
| Patches.SharedEncodings | src/main.rs:262-320 | exactly DPI2, LED enable, LED mode `dpi` and BS4 encode to the shared placeholder |
| Patches.DefaultRepeatIsIdentity | src/main.rs:229-249 | patching repeat 3 (the template's value) changes nothing |
| Patches.PlaceholderIntervalIsIdentity | src/main.rs:341-356 | patching interval 8 (the template's value) changes nothing |
| Patches.RepeatFrameIsPlaceholder | src/main.rs:325-339 | the repeat frame equals the placeholder exactly for repeat 3 |
| Patches.IntervalFrameIsPlaceholder | src/main.rs:341-356 | the interval frame equals the placeholder exactly for interval 8 |
| Patches.SharedDefaultsAreIdentities | src/main.rs:358-410 | the shared-slot macros with the placeholder's own setting change nothing |
| Patches.BrightnessAllIsIdentity | src/main.rs:383-396 | brightness `all` changes nothing |
| Patches.SharedPlaceholderConsumed | src/main.rs:358-410 | once one shared-slot macro has written a different frame, every later shared-slot macro is a no-op |
| Patches.ReplaceAllKeepsWellFormed | src/main.rs:358-367 | replacing a frame by a well-formed frame keeps every frame well-formed |
| Patches.ByteFramesAreFrames | src/main.rs:325-356 | repeat and interval frames are 16 hex digits for every byte |
| Patches.SinglePatchesKeepWellFormed | src/main.rs:325-410 | the repeat, interval, LED, DPI and breathing macros keep a list of frames well-formed |
| Patches.PairPatchesKeepWellFormed | src/main.rs:383-433 | the brightness and continuous-fire macros keep a list of frames well-formed |
| Patches.SinglePatchesIdempotent | src/main.rs:325-410 | each single-frame macro applied twice equals applying it once |
| Patches.BrightnessPatchIdempotent | src/main.rs:383-396 | the brightness macro applied twice equals applying it once |
| Patches.ContinuousPatchIdempotent | src/main.rs:412-433 | the continuous-fire macro applied twice equals applying it once |
| Template.Fill | src/main.rs:506-555 | a filled template always has 48 frames |
| Template.NoPlaceholderOutsideSlots | src/main.rs:506-555 | no template frame outside the six slots equals any placeholder the macros search for |
| Template.FillPlaceholders | src/main.rs:506-555 | the template is its own slots filled with the placeholders |
| Template.PlaceholdersKinded | src/main.rs:506-555 | the placeholders carry their slot's tag digits and are frames |
| Template.FillWidth | src/main.rs:506-555 | a filled template is 16 digits wide and, with well-formed slots, well-formed |
| Template.SlotTags | src/main.rs:506-555 | in a filled template each placeholder can only sit in its own slot |
| Template.RepeatOnFill | src/main.rs:325-339 | the repeat macro on a filled template rewrites only the repeat slot, and only while it holds the placeholder |
| Template.IntervalOnFill | src/main.rs:341-356 | the interval macro on a filled template rewrites only the interval slot, and only while it holds the placeholder |
| Template.SharedOnFill | src/main.rs:358-410 | a shared-slot macro on a filled template rewrites only the shared slot, and only while it holds the placeholder |
| Template.BrightnessOnFill | src/main.rs:383-396 | the brightness macro on a filled template rewrites only the two brightness slots |
| Template.ContinuousOnFill | src/main.rs:412-433 | the continuous-fire macro on a filled template rewrites only the continuous slot and, when enabling, the repeat slot |
| Template.EncodersTagged | src/main.rs:176-323 | every encoding carries the tag digits of the slot it is written to |
| Selection.Packets | src/main.rs:719 | when every frame converts, there is one packet per frame |
| Selection.BaseFramesFill | src/main.rs:563-597 | the base chain (repeat, interval, brightness, breathing) fills the template's slots |
| Selection.FireControlFramesFill | src/main.rs:645-692 | each fire-control arm gives the filled template with its repeat, interval or continuous-fire slots, and no option gives no frames |
| Selection.LedArgsFramesFill | src/main.rs:693-703 | the LED-only request gives the template with the breathing speed in the shared slot, or no frames without a speed |
| Selection.BaseSlotsAreFrames | src/main.rs:563-597 | every base-chain slot is a frame |
| Selection.PacketsOfWellFormed | src/main.rs:719 | well-formed frames all convert, each to an 8-byte packet equal to its own conversion |
| Selection.ConvertFrame | src/main.rs:435-443 | a 16-digit frame converts to 8 bytes |
| Selection.BreathingFiveAsWritten | src/main.rs:469-479 | with the table as written, BS5 puts a 17-digit frame in the shared slot, which converts to 9 bytes |
| Selection.BreathingFiveCorrected | src/main.rs:469-479 | with the corrected entry, BS5 gives a well-formed template whose shared frame converts to 8 bytes |
| Pipeline.SelectFrames | src/main.rs:598-717 | `main` fails exactly when no subcommand, fire-control or LED option is given, and reports no arguments exactly when nothing at all is given |
| Pipeline.RunReset | src/main.rs:614-643 | the reset loop folds the eight `reset_val` settings into the template: shared slot DPI6, interval 6, continuous fire disabled, everything else unchanged |
| Pipeline.ResetStep | src/main.rs:614-643 | each loop step applies one reset value to the frames so far |
| Pipeline.ResetAfterRepeat | src/main.rs:157-168 | resetting repeat to 3 leaves the template unchanged |
| Pipeline.ResetAfterInterval | src/main.rs:157-168 | resetting the interval to 6 writes interval frame 6 |
| Pipeline.ResetAfterContinously | src/main.rs:157-168 | resetting continuous fire writes the disabled frame |
| Pipeline.ResetContinouslyStep | src/main.rs:614-643 | the continuous-fire reset step writes the disabled frame into any filled template |
| Pipeline.ResetAfterDpi | src/main.rs:157-168 | resetting DPI writes the DPI6 frame into the shared slot |
| Pipeline.ResetTailIsIdentity | src/main.rs:157-168 | the last four reset values (LED on, brightness all, mode multi, BS6) change nothing |
| Pipeline.ResetTailFrom | src/main.rs:614-643 | once the shared slot holds another frame, the remaining reset steps change nothing |
| Pipeline.ResetTailStep | src/main.rs:614-643 | one tail step of the reset loop changes nothing |
| Pipeline.ResetTailEntry | src/main.rs:614-643 | an LED, brightness-all or breathing reset on a template whose shared slot is taken changes nothing |
| Pipeline.ResetSlots | src/main.rs:614-643 | the reset fold is the template with the reset slots filled in |
| Pipeline.ResetAsUpdates | src/main.rs:157-168 | the reset frames differ from the template only in frames 11, 44 and 45 |
| Pipeline.CommandFramesFill | src/main.rs:598-613 | a DPI, LED or LED-status subcommand gives the base chain with the command's frame in the shared slot |
| Pipeline.ResetCommandFrames | src/main.rs:614-643 | `reset` gives the reset frames whatever the other options |
| Pipeline.DpiCommandDefaults | src/main.rs:557-613 | `dpi` alone keeps the default repeat 3 and interval 6: the template with the level's frame in frame 11 and interval 6 in frame 44 |
| Pipeline.CommandLostUnderBreathing | src/main.rs:588-613 | with a breathing speed other than BS4 and no brightness, a DPI or LED subcommand is ignored and the speed's frame stays in the shared slot |
| Pipeline.RepeatWinsOverContinuous | src/main.rs:645-660 | with `--repeat` and no interval the repeat arm matches, whatever continuous-fire option is given |
| Pipeline.ContinuousAloneAsWritten | src/main.rs:564-574 | continuous fire alone writes repeat 0 and never the repeat-disabled frame |
| Pipeline.ContinuousAloneCorrected | src/main.rs:412-433 | with the documented defaults, enabling continuous fire alone writes the repeat-disabled frame |
| Pipeline.RepeatWithCommandInterval | src/main.rs:570-576 | a subcommand with `--repeat` writes interval 0 as written, and interval 6 with the documented default |
| Pipeline.LedOnlyFrames | src/main.rs:693-703 | LED options alone give the breathing-speed template, or nothing without a speed |
| Pipeline.ResetSlotsAreFrames | src/main.rs:157-168 | every reset slot is a frame |
| Pipeline.CommandFramesWellFormed | src/main.rs:598-644 | any subcommand gives 48 well-formed frames |
| Pipeline.ResetFramesWellFormed | src/main.rs:614-643 | the reset frames are 48 well-formed frames |
| Pipeline.CommandSlotsAreFrames | src/main.rs:598-613 | every slot of a subcommand's template is a frame |
| Pipeline.CommandHexIsFrame | src/main.rs:262-300 | the frame of a DPI, LED or LED-status subcommand is a frame |
| Pipeline.FireControlFramesWellFormed | src/main.rs:645-692 | fire-control frames are well-formed: 48 of them, or none exactly when no option is given |
| Pipeline.LedArgsFramesWellFormed | src/main.rs:693-703 | LED-only frames are well-formed: 48 of them, or none exactly without a breathing speed |
| Pipeline.SelectFramesWellFormed | src/main.rs:598-717 | with the corrected BS5 entry, `main` selects 48 well-formed frames or none, and none exactly for empty fire-control options or LED options without a speed |
| Pipeline.MainPackets | src/main.rs:719 | with the corrected BS5 entry, `main` succeeds exactly when it selects frames, never fails in conversion, and sends one 8-byte packet per frame |
| A15.ApplyCommand | src/regdear-a15/src/main.rs:161-169 | a subcommand sets the one setting it names; every other field, including the three other settings a subcommand can set, is kept |
| A15.ApplyCommandIdempotent | src/regdear-a15/src/main.rs:161-169 | applying a subcommand twice equals applying it once |
| A15.ApplyCommandCommutes | src/regdear-a15/src/main.rs:161-169 | subcommands naming different settings commute |
| A15.SelectFrames | src/regdear-a15/src/main.rs:632-764 | `main` fails exactly without subcommand, fire-control or LED options; `reset` selects no frames |
| A15.SelectFramesWellFormed | src/regdear-a15/src/main.rs:632-764 | with the corrected BS5 entry, the frames are 48 well-formed frames or none, and none exactly for `reset` and the main program's empty cases |
| A15.MainPackets | src/regdear-a15/src/main.rs:632-770 | with the corrected BS5 entry, `main` succeeds exactly when it selects frames and sends one 8-byte packet per frame |
| A15.DpiCommandDefaults | src/regdear-a15/src/main.rs:675-692 | `dpi` alone gives the template with the level's frame in frame 11 and interval 6 in frame 44 |

## Left out

- HID transport is not modelled: device lookup by vendor and product id, `send_report_to_mouse`, and the pause between reports. `main` ends with the packets it would send.
- Command-line parsing with `clap` is not modelled. The model starts from the parsed `MouseArgs`.
- Console output (`println!`, `eprintln!`) is left out.
- `todo!()` for the moving, double-click and rolling speed options is modelled as `Err(Unimplemented)`.
- `exit(1)` in `src/main.rs` and `panic!` in `src/regdear-a15/src/main.rs` without arguments are modelled as `Err(NoArgs)`.
- A panic inside `convert_str_hex` would be `Err(InvalidHex)`. The model proves that this error never happens.
- The `REPEAT_HEX`, `LED_HEX` and `DPI_HEX` tables of `src/regdear-a15/src/main.rs` (356-507) are never read by its `main`, so they are not modelled.
- The options carried by the subcommands of `src/main.rs` (`GlobalMouseOptions`) are parsed but never read by `main`. The model carries them and ignores them.
- `MouseConfig` fields other than repeat, interval, brightness and breathing speed are never read by `main`, so their defaults appear only in `Settings.DefaultConfig`.
- Settings.BreathingSpeed.Hex returns the corrected BS5 frame, and so do the frame lists and packets of `main` built on it. The table as written is kept as `HexAsWritten`, and the patch that uses it is `Patches.PatchBreathingAsWritten`; see Findings.
- Pipeline.MainFrames uses the corrected BS5 entry. As written, `--breathing-speed bs5` puts the 17-digit frame in frame 11 (Selection.BreathingFiveAsWritten).
- Pipeline.MainPackets and A15.MainPackets hold for the corrected BS5 entry. As written, `--breathing-speed bs5` sends a 9-byte packet for frame 11 (Selection.BreathingFiveAsWritten).
- Pipeline.SelectFramesWellFormed and A15.SelectFramesWellFormed hold for the corrected BS5 entry. As written, frame 11 is then 17 digits and the list is not well-formed.
- Settings.EncodersAreFrames holds for the corrected table. The BS5 entry as written has 17 digits (Settings.BreathingSpeedTableAsWritten).
- Pipeline.MainFrames resolves repeat and interval with `unwrap_or_default`, as the code does. `Pipeline.MainFramesCorrected` uses the documented defaults 3 and 6.
- The empty-pattern case of `str::replace` is modelled but never reached, because every pattern the macros use is a 16-digit frame or a 4-digit fragment.

## Findings

| source | as written | input that shows it | evidently intended | confidence | as-written member | corrected member |
|---|---|---|---|---|---|---|
| src/main.rs:474 | the BS5 entry of `BREATHING_SPEED_HEX` is `1040701fe619e807f`, 17 digits with a stray leading `1` | `--breathing-speed bs5`: frame 11 becomes 17 digits and converts to the 9 bytes `10 40 70 1f e6 19 e8 07 0f` | `040701fe619e807f`, 8 bytes like every other entry | not executed | Selection.BreathingFiveAsWritten | Selection.BreathingFiveCorrected |
| src/main.rs:566-576 | repeat and firing interval fall back to `unwrap_or_default()`, which is 0, whenever any fire-control option is present | `--continously enable` alone writes repeat frame `04070afd00a1fe03`, not the repeat-disabled frame; `--repeat 5` with `dpi` writes interval frame `040721fe00fc94ff` | fall back to the configuration defaults 3 and 6 | not executed | Pipeline.ContinuousAloneAsWritten | Pipeline.ContinuousAloneCorrected |
