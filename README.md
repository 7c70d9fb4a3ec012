# Image Processor: the `process_image` decision, in Dafny

This project models the core of a small PyQt5 image converter (a single `main.py`). The user
loads an image and picks an output folder. They choose a resize method: a percentage slider, or
width and height typed as text. They also choose an output format (JPEG, PNG, BMP, GIF), a
quality slider value and a file name. "Process Image" then resizes, converts and saves the image.

The model has four modules.

- `Processor` (`processor.dfy`): the window's state as a class `ImageProcessor`. It has the fields
  `imagePath`, `image` and `outputFolder`, and the three slots that use them. `LoadImage` and
  `SelectOutputFolder` update the fields in place and ignore a cancelled dialog. `ProcessImage`
  follows the source statement by statement, with its early returns. It is proved equal to the
  pure function `Planning.Run`.
- `Planning` (`planning.dfy`): the decision itself. `Decide` runs the four guards in source order
  (image loaded, folder set, dimension texts parse, file name non-empty) and builds the `Plan`.
  The plan holds the target size, the JPEG colour-mode rule, the path `folder/name.ext`, the
  upper-cased format name and the quality. `Run` adds the PIL calls `resize`, `convert` and `save`,
  each of which may raise. The user-visible result is an `Outcome`: a warning, a saved file, or the
  error box.
- `ProcessProperties` (`properties.dfy`): the properties of `Decide` and `Run`. These cover guard
  order, the exact messages, the target-size arithmetic, verbatim dimensions, the conversion
  if-and-only-if, the saved path, format and quality, and failure propagation.
- `PyStr` (`pystr.dfy`): the Python built-ins the decision relies on. These are `str.lower`,
  `str.upper` and `int(text)`, restricted to ASCII. `Strip` stands for the white-space skipping
  inside `int()`, which skips only tab, line feed, vertical tab, form feed, carriage return and
  space. `int` is given a printer and a round-trip proof.

Inputs that come from outside the program are parameters:

- The widget values are one `Controls` value. The sliders are the type `SliderValue`, which is
  1..100.
- The result of the open dialog is a `string`, and the result of `Image.open` is an
  `Option<ImageInfo>`.
- The behaviour of PIL's `resize`/`convert`/`save` is a `Backend` value. It gives, per call, the
  message of the exception the call raises, if any.

The message boxes appear as the returned `Outcome`. The error box shows the text
`An error occurred: ` followed by `Failed.reason`. The success box shows
`Image processed and saved as ` followed by `Saved.path`.

Behaviour of the code worth knowing:

- No target dimension is clamped or rejected: a computed 0 and a negative typed number are both
  handed to `resize` (see `ZeroTargetNotRejected`, `DimensionsVerbatim`). Whatever PIL does with
  them is a backend outcome.
- A failing `Image.open` raises out of the `load_image` slot after the path field has already been
  overwritten, and the previous image stays loaded (`LoadImage`).
- Every exception from resize, convert or save ends in the same error box, which shows the
  exception's message.
- Quality is passed to `save` for every format, not only JPEG.

## Model

| member | source | states |
|---|---|---|
| `Processor.ImageProcessor.constructor` | main.py:30-32 | a new window has no image path, no image and no output folder |
| `Processor.ImageProcessor.LoadImage` | main.py:193-199 | an empty dialog result changes nothing; otherwise the path is replaced, the image is replaced only when opening succeeded (the old image stays if it failed), and the folder is untouched; the window invariant is kept |
| `Processor.ImageProcessor.SelectOutputFolder` | main.py:204-207 | an empty dialog result keeps the folder; otherwise the folder becomes the result; nothing else changes |
| `Processor.ImageProcessor.ProcessImage` | main.py:210-251 | the imperative early-return procedure over the window's fields yields exactly the outcome `Run` specifies, and changes no field; in a valid window the folder warning appears exactly when an image is loaded and no folder was ever selected |
| `Processor.FirstUse` | main.py:30-32 | a fresh window warns about the missing image, even after a cancelled open dialog; after an image and a folder are chosen, an empty file name is what it warns about |
| `Planning.Decide` | main.py:210-239 | a plan is produced only when an image is loaded, a non-empty folder is set and the file name is non-empty |
| `Planning.Run` | main.py:210-251 | a failing guard's warning is the outcome; a saved file means every guard passed and neither `resize` nor `save` raised; an error box carries the message of one of the PIL calls, and only after every guard passed |
| `Planning.TargetSize` | main.py:219-229 | percentage mode always yields a size; dimensions mode yields one exactly when both texts parse, and it is the pair of parsed integers |
| `Planning.NeedsRGB` | main.py:245 | conversion is only ever requested for the `jpeg` extension and never for an image already in RGB |
| `Planning.OutputPath` | main.py:239 | the path is the folder, a `/`, the file name, a `.` and the extension, each recoverable at its position |
| `Planning.Extension` | main.py:232 | the extension has the box entry's length and contains no upper-case letter |
| `Planning.SaveFormat` | main.py:248 | the format name given to `save` has the box entry's length and contains no lower-case letter |
| `Planning.ScaledDimension` | main.py:221-222 | the scaled size r satisfies r*100 <= size*p < r*100+100 and never exceeds the source size |
| `Planning.ScaledIsFloor` | main.py:221-222 | the scaled size equals the floor of the exact rational size*p/100 |
| `Planning.FullScaleKeepsSize` | main.py:77 | at the default percentage 100 the size is unchanged |
| `Planning.ScaledMonotone` | main.py:219-222 | a larger percentage never gives a smaller dimension |
| `Planning.ExtensionNames` | main.py:114 | the lower-cased box entries are `jpeg`, `png`, `bmp`, `gif` |
| `Planning.SaveFormatIsLabel` | main.py:248 | upper-casing the lower-cased entry gives back the box entry, so `save` receives one of JPEG/PNG/BMP/GIF |
| `Planning.JpegExtension` | main.py:245 | the extension is `jpeg` if and only if the JPEG entry is selected |
| `ProcessProperties.NoImageWarnsFirst` | main.py:211-213 | with no image the outcome is `No image loaded!` whatever the folder, controls and backend |
| `ProcessProperties.NoFolderWarns` | main.py:215-217 | with an image but no (or an empty) folder the outcome is `No output folder selected!` |
| `ProcessProperties.BadDimensionsWarnBeforeName` | main.py:224-229 | in dimensions mode an unparsable width or height gives `Please enter valid dimensions!`, whatever the file name |
| `ProcessProperties.EmptyNameWarns` | main.py:235-237 | once the earlier guards pass, an empty file name gives `Please enter an output file name!` |
| `ProcessProperties.WarningIffGuardFails` | main.py:210-237 | a warning appears if and only if one of the four guards fails; it carries the first failing guard's message, and then no resize or save is planned |
| `ProcessProperties.PercentageTarget` | main.py:219-222 | in percentage mode each target dimension is the truncation of size*p/100 and lies between 0 and the source size |
| `ProcessProperties.DefaultPercentageKeepsSize` | main.py:77 | at p = 100 the target is exactly the source width and height |
| `ProcessProperties.DimensionsVerbatim` | main.py:224-226 | in dimensions mode the typed integers, including zero and negative ones, are the target size unchanged |
| `ProcessProperties.PercentageIgnoresTexts` | main.py:219-222 | in percentage mode the width and height texts do not affect the outcome |
| `ProcessProperties.ZeroTargetNotRejected` | main.py:221-222 | 1% of a 50 x 50 image plans a 0 x 0 resize; no guard rejects it |
| `ProcessProperties.ConvertIffJpegWithAlphaOrPalette` | main.py:245-246 | conversion to RGB happens if and only if the format is JPEG and the mode is RGBA or P |
| `ProcessProperties.SavedFile` | main.py:231-249 | with all guards passing and no PIL failure, the saved file is `folder/name.ext` with the lower-case extension, format = the box entry, quality = the slider value, size = the target size, and mode RGB for JPEG from RGBA/P, otherwise the source mode |
| `ProcessProperties.JpegNeverReceivesAlphaOrPalette` | main.py:245-248 | a JPEG save never receives RGBA or P data |
| `ProcessProperties.OtherFormatsKeepMode` | main.py:245-248 | for PNG, BMP and GIF the source mode reaches `save` unchanged |
| `ProcessProperties.FailureIffCalledStepRaises` | main.py:241-251 | if `resize` raises, its message is reported whatever `convert` and `save` do; otherwise a raising `convert` (made only when converting) is reported; otherwise a raising `save`; a file is saved exactly when no call that is made raises |
| `ProcessProperties.ConvertErrorIrrelevantWithoutConversion` | main.py:245-246 | when no conversion is needed, a failing `convert` cannot affect the outcome |
| `ProcessProperties.HalfSizeRgbaToJpeg` | main.py:219-248 | a 1000 x 500 RGBA image at 50% as JPEG, quality 80, is saved as a 500 x 250 RGB JPEG at `folder/out.jpeg` |
| `PyStr.Lower` | main.py:232 | the result has the input's length and each character is its ASCII lower-case form |
| `PyStr.Upper` | main.py:248 | the result has the input's length and each character is its ASCII upper-case form |
| `PyStr.UpperOfLower` | main.py:248 | upper-casing after lower-casing equals upper-casing directly |
| `PyStr.UpperOfUpperCase` | main.py:248 | a string with no lower-case letter is its own upper-case form |
| `PyStr.TrimStart` | main.py:225-226 | the leading white space `int()` skips: the result is a suffix that does not start with white space, and everything removed is white space |
| `PyStr.TrimEnd` | main.py:225-226 | the trailing white space `int()` skips: the result is a prefix that does not end with white space, and everything removed is white space |
| `PyStr.Strip` | main.py:225-226 | what `int()` reads after skipping white space is no longer than the text and has no white space at either end |
| `PyStr.StripTrimmed` | main.py:225-226 | a string with no white space at either end strips to itself |
| `PyStr.StripBlank` | main.py:225-226 | an all-white-space string strips to empty |
| `PyStr.ParseInt` | main.py:225-226 | `int()` only succeeds on a text that contains a digit |
| `PyStr.Digits` | main.py:225-226 | the decimal form of a natural number is non-empty and all digits |
| `PyStr.DigitsValue` | main.py:225-226 | the decimal form of n is a numeral whose value is n |
| `PyStr.ParseFormatted` | main.py:225-226 | `int(str(n)) == n` for every integer, negative ones included |
| `PyStr.ParsePadded` | main.py:225-226 | white space around a written integer does not change what `int()` reads |
| `PyStr.ParseRejectsSeparator` | main.py:225-226 | an information separator (character 28) before the digits is not skipped: `int("\x1c5")` is rejected |
| `PyStr.ParseBlank` | main.py:225-226 | an empty or all-blank field is rejected by `int()` |

## Left out

- Widget construction, layout, style sheet, the label-update slots and the message boxes themselves (main.py:36-191, main.py:253-257). Messages are returned as `Outcome` values.
- The file dialogs, the decoder behind `Image.open`, the `LANCZOS` resampler and the `convert`/`save` encoders are foreign library code. They are parameters: a dialog result string, `Option<ImageInfo>` for `Image.open`, and `Backend` for the three calls. The model assumes that `resize` keeps the colour mode. It also does not model PIL's lazy loading: a truncated file can fail only at `resize`, which the model shows as a resize error.
- The QPixmap preview in `load_image` (main.py:200-202) is presentation only.
- `LoadImage`: what happens to the application after an exception from `Image.open` escapes the slot is left out. The model records the path update and keeps the old image.
- `resource_path` (main.py:12-19) depends on PyInstaller and the file system. The application entry point (main.py:260-264) is left out too.
- `Planning.ScaledDimension`: uses the exact integer `size * p / 100`. Python computes `int(size * (p / 100))` in floating point, which can come out one lower. For example, `100 * (29 / 100)` is `28.999…` and truncates to 28, not 29. Double-precision arithmetic is not modelled.
- `PyStr.ParseInt`: covers Python's `int()` on ASCII text. It skips surrounding tab, line feed, vertical tab, form feed, carriage return and space, then reads an optional sign and digits with single underscores between them. Every other character is treated as neither white space nor a digit. Unicode digits and Unicode white space are not modelled. Nor is the interpreter's behaviour on a text that contains a non-ASCII character, where it also skips characters 28-31. Nor is its limit on the number of digits in a converted string.
- `PyStr.Lower`: and `PyStr.Upper` map ASCII letters only. Python's full Unicode case mapping is not modelled. The strings they are applied to here are the four ASCII format names.
- Qt's radio-button group is modelled as the two-valued `ResizeMethod`, so "both" or "neither" checked cannot arise. The sliders are modelled as `SliderValue`, limited to their configured range 1..100.
