# LibCamera command-line model

This project models `LibCameraModel`, the core of the LibCamera web service. The class holds about seventy optional
settings of the `libcamera-vid` capture tool and renders them into one
`libcamera-vid` command line. It is written across two partial C# files:

- `LibCamera/Models/LibCameraModel.cs` declares the properties, the small value types and the enums.
  - Six properties have a setter with logic: `Verbose`, `Config`, `Brightness`, `Contrast`, `Saturation` and `Sharpness`.
  - Every other property is a plain auto-property.
  - The value types are `PreviewModel`, `ROIModel`, `AWBGainsModel`, `ModeModel`, `FlickerPeriodModel` and `BitrateModel`.
- `LibCamera/Models/LibCameraMethods.cs` holds the two constructors, the `InvalidValueActionEvent` notifier and `ToString()`, which renders the command line.

The Dafny modules follow that split:

- `Wrappers` (`option.dfy`): `Option`, which stands for C#'s nullable `T?`.
- `Decimal` (`decimal.dfy`): the decimal text of `uint`, `ushort` and `int` values (`x.ToString()`), and how to read it back.
- `Text` (`text.dfy`): `string.ToLower()` on enum names, plus splitting a delimiter-joined text.
- `CameraValues` (`values.dfy`):
  - the value types, as datatypes with their `ToString` and, where it exists, its inverse;
  - the eleven enums, each with its declared names;
  - the validation patterns of the `[RegularExpression]` attributes, as predicates.
- `CommandLine` (`command_line.dfy`): a command line as a `Line` value, the program name followed by `flag[ value]` groups, and the text it is written as.
- `LibCamera` (`model.dfy`): the class.
  - `Options` holds every option at one moment, in the order `ToString()` renders them.
  - `Commands(o, fmt)` is the specification of the renderer: the `Line` the options produce. `RenderLine` is its text.
  - `LibCameraModel` is a class with one field per property, plus the notification log.
    - Its setter methods and constructors change the fields.
    - Its `ToString` method builds the line step by step, one conditional append per option.
    - That method is proved to return `RenderLine(Snapshot(), fmt)`.
  - The lemmas are stated about `Commands`, so they speak about every line the class can render.

Doubles are modelled as `real`. The .NET conversion of a double to text is a parameter, `fmt: real -> string`. The model
only assumes that `fmt` is a function, and it says nothing about its digits.

The `InvalidValueActionEvent` notifier is modelled as the log `notified`. Each invocation appends the property name to it.
`subscribed` says whether a handler is attached. A model built with the parameterless constructor has none, so `?.Invoke` does nothing.

Three points about the code that a reader might expect otherwise:

- **`Config` and `"-"`** (`LibCamera/Models/LibCameraModel.cs:38-46`):
  - The property's doc comment at line 38 says that assigning `"-"` leaves `"config.txt"` in `_config`.
  - Line 45 does store `"config.txt"`, but line 46 overwrites it at once.
  - So any value, `"-"` included, is stored verbatim and rendered as `--config -`. The model follows the code.
- **No escaping:** `ToString()` appends string options verbatim, with no quoting or escaping. The model does the same.
- **Which assignments report:** only the five setters with a range check invoke `InvalidValueActionEvent`. The `[Range]` and `[RegularExpression]` attributes on the other properties report nothing when a property is assigned.

## Model

| member | source | states |
|---|---|---|
| LibCamera.LibCameraModel.constructor | LibCamera/Models/LibCameraMethods.cs:12-20 | every option is absent, no handler is attached and nothing has been notified |
| LibCamera.LibCameraModel.WithDelegate | LibCamera/Models/LibCameraMethods.cs:22-32 | every option is absent, a handler is attached exactly when the delegate given is non-null, and nothing has been notified |
| LibCamera.LibCameraModel.InvalidValueAction | LibCamera/Models/LibCameraModel.cs:30 | `InvalidValueActionEvent?.Invoke(name)`: the name is logged once when a handler is attached, and nothing is logged otherwise |
| LibCamera.LibCameraModel.SetVerbose | LibCamera/Models/LibCameraModel.cs:25-33 | the level is stored whatever it is; "Verbose" is notified exactly once when it is present and above 2, and never for null or for 0 to 2; nothing outside `verbose` and the log changes |
| LibCamera.LibCameraModel.SetConfig | LibCamera/Models/LibCameraModel.cs:40-48 | the value read back is exactly the value assigned, `"-"` included; nothing is notified and no other field changes |
| LibCamera.LibCameraModel.SetBrightness | LibCamera/Models/LibCameraModel.cs:198-206 | the value is always stored; "Brightness" is notified exactly once when it is present and outside [-1, 1], and never otherwise |
| LibCamera.LibCameraModel.SetContrast | LibCamera/Models/LibCameraModel.cs:212-220 | the value is always stored; "Contrast" is notified exactly once when it is present and outside [0, 1], and never otherwise |
| LibCamera.LibCameraModel.SetSaturation | LibCamera/Models/LibCameraModel.cs:226-234 | the value is always stored; "Saturation" is notified exactly once when it is present and outside [0, 1], and never otherwise |
| LibCamera.LibCameraModel.SetSharpness | LibCamera/Models/LibCameraModel.cs:240-248 | the value is always stored; "Sharpness" is notified exactly once when it is present and outside [0, 1], and never otherwise |
| LibCamera.LibCameraModel.ToString | LibCamera/Models/LibCameraMethods.cs:38-119 | the text built by one conditional append per option is the text of `Commands` applied to the current fields, and the method changes nothing |
| LibCamera.RenderLineGroups | LibCamera/Models/LibCameraMethods.cs:45-116 | the line is `libcamera-vid` followed by one group per option, in the fixed order of lines 46-116; an absent option contributes "", a present value-carrying option `" " + flag + " " + value`, a true flag `" " + flag` |
| LibCamera.NoOptionsRenderProgram | LibCamera/Models/LibCameraMethods.cs:45-118 | with every option absent, no group is added and the line is exactly `libcamera-vid` |
| LibCamera.FreshModelsRenderProgram | LibCamera/Models/LibCameraMethods.cs:12-32 | a fresh model built by either constructor renders exactly `libcamera-vid` |
| LibCamera.RenderTwice | LibCamera/Models/LibCameraMethods.cs:38-119 | rendering twice in a row yields the same string, which is the line of the model's fields |
| LibCamera.NoPreviewFalseIsAbsent | LibCamera/Models/LibCameraMethods.cs:56 | `-n` set to false renders exactly as absent, whatever the other options are |
| LibCamera.QtPreviewFalseIsAbsent | LibCamera/Models/LibCameraMethods.cs:58-59 | `--qt-preview` set to false renders exactly as absent, including its effect on `-f` |
| LibCamera.FullscreenFalseIsAbsent | LibCamera/Models/LibCameraMethods.cs:59 | `-f` set to false renders exactly as absent |
| LibCamera.HFlipFalseIsAbsent | LibCamera/Models/LibCameraMethods.cs:60 | `--hflip` set to false renders exactly as absent |
| LibCamera.VFlipFalseIsAbsent | LibCamera/Models/LibCameraMethods.cs:61 | `--vflip` set to false renders exactly as absent |
| LibCamera.RotationFalseIsAbsent | LibCamera/Models/LibCameraMethods.cs:62 | rotation set to false renders exactly as absent |
| LibCamera.FlushFalseIsAbsent | LibCamera/Models/LibCameraMethods.cs:71 | `--flush` set to false renders exactly as absent |
| LibCamera.NoRawFalseIsAbsent | LibCamera/Models/LibCameraMethods.cs:88 | `--no-raw` set to false renders exactly as absent |
| LibCamera.InlineFalseIsAbsent | LibCamera/Models/LibCameraMethods.cs:102 | `--inline` set to false renders exactly as absent |
| LibCamera.ListenFalseIsAbsent | LibCamera/Models/LibCameraMethods.cs:106 | `-l` set to false renders exactly as absent |
| LibCamera.KeyPressFalseIsAbsent | LibCamera/Models/LibCameraMethods.cs:107 | `-k` set to false renders exactly as absent |
| LibCamera.SignalFalseIsAbsent | LibCamera/Models/LibCameraMethods.cs:108 | `-s` set to false renders exactly as absent |
| LibCamera.SplitFalseIsAbsent | LibCamera/Models/LibCameraMethods.cs:110 | `--split` set to false renders exactly as absent |
| LibCamera.QtPreviewSuppressesFullscreen | LibCamera/Models/LibCameraMethods.cs:58-59 | when `--qt-preview` is on, the line is the same whatever `Fullscreen` is |
| LibCamera.FullscreenWithoutQtPreview | LibCamera/Models/LibCameraMethods.cs:59 | with every other option absent, `Fullscreen = true` gives the line `libcamera-vid -f` when `QTPreview` is null or false |
| LibCamera.QtPreviewWithFullscreen | LibCamera/Models/LibCameraMethods.cs:58-59 | with `QTPreview = true`, only `--qt-preview` is emitted, whether `Fullscreen` is null, false or true |
| LibCamera.RotationIsHalfTurn | LibCamera/Models/LibCameraMethods.cs:62 | with every other option absent, `Rotation = true` gives the line of the single group `--rotation 180` |
| LibCamera.CameraAlone | LibCamera/Models/LibCameraMethods.cs:46 | with every other option absent, `Camera = n` gives the line of the single group `--camera` with `n` in decimal |
| LibCamera.ConfigAlone | LibCamera/Models/LibCameraMethods.cs:48 | with every other option absent, `Config = c` gives the line of the single group `--config` with `c` verbatim, `"-"` included |
| LibCamera.FirstBeforeLast | LibCamera/Models/LibCameraMethods.cs:46-116 | with only `Camera` and `LibavFormat` set, the `--camera` group comes first and the `--libav-format` group second |
| LibCamera.SessionLine | LibCamera/Models/LibCameraMethods.cs:46-74 | five options, unsigned and double ones, give their five groups in the fixed order, with the numbers in decimal and the doubles through the runtime's conversion |
| LibCamera.ExampleSession | LibCamera/Models/LibCameraModel.cs:19-33 | auto-property assignments notify nothing; the setters notify the out-of-range `Verbose` and `Contrast` once each, in order, and stay silent for an in-range `Brightness`; all five values assigned (`Camera`, `Verbose`, `Width`, `Brightness`, `Contrast`) read back as assigned |
| LibCamera.MeteringSpotText | LibCamera/Models/LibCameraMethods.cs:66 | `Metering = Spot` renders as `spot` |
| LibCamera.HDRSingleExpText | LibCamera/Models/LibCameraMethods.cs:94 | `HDR = SingleExp` renders as `singleexp` |
| LibCamera.DenoiseNamesUnchanged | LibCamera/Models/LibCameraMethods.cs:78 | every `DenoiseEnum` name is declared in lower case, so it renders exactly as declared, e.g. `cdn_fast` |
| LibCamera.CodecYuv420Text | LibCamera/Models/LibCameraMethods.cs:103 | `Codec = Yuv420` renders as `yuv420` |
| CommandLine.WrittenAdd | LibCamera/Models/LibCameraMethods.cs:46 | adding a group to a line appends exactly that group's text: nothing for an absent option, `" " + flag` for a flag, `" " + flag + " " + value` for a value |
| CommandLine.WrittenOne | LibCamera/Models/LibCameraMethods.cs:46-56 | a line with one group is written as the program, a space and the flag, then a space and the value when there is one |
| LibCamera.RenderOne | LibCamera/Models/LibCameraMethods.cs:45-48 | any options whose line is a single valued group are written `libcamera-vid flag value`, with single spaces |
| CameraValues.PreviewModel.ToString | LibCamera/Models/LibCameraModel.cs:488-491 | splitting the text at commas gives exactly the decimal X, Y, Width and Height, in that order |
| CameraValues.PreviewRoundTrip | LibCamera/Models/LibCameraModel.cs:488-491 | the text reads back to the same preview window |
| CameraValues.ROIModel.ToString | LibCamera/Models/LibCameraModel.cs:504-510 | when no converted double holds a comma, splitting the text at commas gives exactly the four converted doubles, in order |
| CameraValues.AWBGainsModel.ToString | LibCamera/Models/LibCameraModel.cs:519-525 | splitting the text at the comma gives exactly the decimal Red and Blue |
| CameraValues.AWBGainsRoundTrip | LibCamera/Models/LibCameraModel.cs:519-525 | the text reads back to the same gains |
| CameraValues.ModeModel.ToString | LibCamera/Models/LibCameraModel.cs:537-540 | splitting the text at colons gives exactly the decimal W, H and BitDepth, then `P` when packed and `U` otherwise |
| CameraValues.ModeRoundTrip | LibCamera/Models/LibCameraModel.cs:537-540 | the text reads back to the same mode, packing included |
| CameraValues.MeasureText | LibCamera/Models/LibCameraModel.cs:551 | for any units: the text ends with the units, and what precedes them is a canonical decimal (digits, no leading zero) denoting the value; when the units do not start with a digit, the text also reads back to value and units |
| CameraValues.MeasureTextUnique | LibCamera/Models/LibCameraModel.cs:551 | the measure text of a value and units is unique: it is exactly the decimal text of the value followed by the units |
| CameraValues.FlickerPeriodModel.ToString | LibCamera/Models/LibCameraModel.cs:549-552 | for any units: the canonical decimal value immediately followed by the units, with no separator; it reads back to both when the units do not start with a digit |
| CameraValues.BitrateModel.ToString | LibCamera/Models/LibCameraModel.cs:561-564 | for any units: the canonical decimal value immediately followed by the units, with no separator; it reads back to both when the units do not start with a digit |
| CameraValues.MeasureNeedsUnitsPattern | LibCamera/Models/LibCameraModel.cs:544-552 | without the units pattern, different periods render alike: value 1 with units `5s` and value 15 with units `s` both give `15s` |
| CameraValues.ValidUnitsReadBack | LibCamera/Models/LibCameraModel.cs:544-564 | units matching `[um]?s` or `[GMK]?[Bb]p[smh]` make the flicker period and the bitrate texts read back to their value and units |
| Decimal.NatToDecimal | LibCamera/Models/LibCameraMethods.cs:46 | `uint.ToString()`: a non-empty text of digits, with no leading zero except for 0 itself |
| Decimal.DecimalRoundTrip | LibCamera/Models/LibCameraMethods.cs:46 | the decimal text reads back to the number |
| Decimal.NatToDecimalInjective | LibCamera/Models/LibCameraMethods.cs:46 | different numbers have different decimal texts |
| Decimal.CanonicalDecimal | LibCamera/Models/LibCameraMethods.cs:46 | every non-empty digit string without a leading zero is the decimal text of its own value, so the no-leading-zero contracts pin the text down |
| Decimal.IntToDecimal | LibCamera/Models/LibCameraMethods.cs:77 | `int.ToString()`: a leading `-` exactly for a negative number, followed by a non-empty digit string with no leading zero except for 0 itself |
| Decimal.IntRoundTrip | LibCamera/Models/LibCameraMethods.cs:77 | the signed decimal text reads back to the number |
| Text.ToLower | LibCamera/Models/LibCameraMethods.cs:66 | the text has the same length, every capital becomes its lower-case letter, and every other character is kept |
| Text.ToLowerIdempotent | LibCamera/Models/LibCameraMethods.cs:66 | lower-casing a rendered name again changes nothing |
| Text.ToLowerKeepsLower | LibCamera/Models/LibCameraMethods.cs:78 | a name without capitals is rendered unchanged |

## Left out

- `LibCamera/Controllers/LibCameraController.cs`, the HTTP endpoint that returns `model.ToString()`, is not part of this model: it is transport plumbing.
- Double-to-text conversion (`ToString(nfi)` on the four doubles and inside `ROIModel.ToString`) is the parameter `fmt`.
  - `CurrencyDecimalSeparator` has no effect on that conversion, so it does not appear in the model.
  - Doubles are `real`, so NaN and the infinities are not modelled. In C# an infinite brightness, contrast, saturation or sharpness is out of range and is reported; NaN fails both comparisons, so it is stored without a report.
- The `[Range]` and `[RegularExpression]` attributes are enforced by the ASP.NET validation pipeline, not by this class.
  - The model does not enforce them.
  - The lens-position, metadata, flicker-unit and bitrate-unit patterns exist as separate predicates, and only the unit predicates are used, in `CameraValues.ValidUnitsReadBack`.
  - The `uint` ranges `[0, uint.MaxValue]` hold by type.
  - The attribute treats an empty string as valid. The predicates do not.
  - `MetadataValid` reads `\w` as ASCII letters, digits and `_`, where .NET also accepts other Unicode letters.
- Event mechanics are modelled as one `subscribed` flag.
  - The model does not cover several handlers, `-=`, or a handler that throws.
  - `WithDelegate` takes whether the delegate is non-null, not the delegate itself.
- `Decimal.IntToDecimal` always writes `-` before a negative `Framerate`. `Framerate.ToString()` uses the current culture's negative sign, which is not `-` in every culture; the model does not cover other signs.
- `Text.ToLower` lower-cases ASCII capitals only. This covers every enum name, but the model does not cover culture-dependent casing.
- `FlickerPeriodModel.Units` and `BitrateModel.Units` may be `null` in C#, and `null` formats like `""`. The model has no null units, so the empty string stands for both.
- `PreviewModel`, `ROIModel`, `AWBGainsModel` and `ModeModel` are mutable reference classes in C#. They are values here, so two options sharing one instance, and a later change to it, are not modelled.
- Auto-properties are public fields of `LibCameraModel`: assigning one is a field assignment. No method stands for each getter or setter.
- `LibCamera.LibCameraModel.ToString` reads the fields once into an `Options` snapshot and appends through the helper functions `AppendValue` and `AppendFlag`. There is no `StringBuilder` object.
- An out-of-range enum cast, where `Enum.GetName` returns null and `.ToLower()` throws, cannot be built from Dafny datatypes, so it is not modelled. The source declares 11 enums, and all of them are modelled.
- The literal enum renderings are proved each for one example (`Spot`, `SingleExp`, `Yuv420`, every `DenoiseEnum`). For the other names, the general lemmas `Text.ToLower` and `Text.ToLowerKeepsLower` apply.
- FullscreenWithoutQtPreview: proved with every other option absent. For any options, `-f`'s group and its place in the line are stated by `LibCamera.RenderLineGroups` (the `-f` group is present exactly when `Fullscreen` is true and `QTPreview` is not). The model has no separate lemma for `-f` in every context.
- RotationIsHalfTurn: proved with every other option absent. In any context, the `--rotation` group is given by `LibCamera.RenderLineGroups`.
- CameraAlone: proved for `Camera` with every other option absent. The other unsigned options, in any context, are covered only through `LibCamera.RenderLineGroups`, which writes each one with `NatToDecimal`.
- ConfigAlone: proved for `Config` with every other option absent. The other string options, in any context, are covered only through `LibCamera.RenderLineGroups`, which writes each one verbatim.
- FirstBeforeLast: proved for `Camera` and `LibavFormat` alone. The order of all 71 groups in any context is stated by `LibCamera.RenderLineGroups`.
