/** The decision `ImageProcessor.process_image` takes (main.py:210-251), with the
    window's widgets read as plain values and the PIL calls as an opaque backend. */
module Planning {
  import opened Optional
  import opened PyStr

  // ---------------------------------------------------------------- inputs

  /** A value of one of the two sliders, both bounded to 1..100 (main.py:75-76, main.py:100-101). */
  type SliderValue = x: int | 1 <= x <= 100 witness 100

  /** What `Image.open` reports about a decoded image: its size and PIL mode name
      (`"RGB"`, `"RGBA"`, `"P"`, `"L"`, ...). */
  datatype ImageInfo = ImageInfo(width: nat, height: nat, mode: string)

  /** The two exclusive radio buttons (main.py:62-69). */
  datatype ResizeMethod = ByPercentage | ByDimensions

  /** The entries of the output format box (main.py:114). */
  datatype Format = JPEG | PNG | BMP | GIF

  /** The state of the widgets `process_image` reads. */
  datatype Controls = Controls(
    resizeMethod: ResizeMethod,
    resizePercent: SliderValue,
    widthText: string,
    heightText: string,
    quality: SliderValue,
    format: Format,
    outputName: string)

  /** What the PIL calls inside the `try` (main.py:241-251) do: `Some(e)` when the
      call raises with message `e`. `Image.resize` keeps the colour mode. */
  datatype Backend = Backend(
    resizeError: Option<string>,
    convertError: Option<string>,
    saveError: Option<string>)

  /** The arguments `process_image` hands to `resize`, `convert` and `save`. */
  datatype Plan = Plan(
    width: int,
    height: int,
    convertToRGB: bool,
    path: string,
    saveFormat: string,
    quality: int)

  /** The outcome of the guards: a warning box, or the plan to carry out. */
  datatype Decision = Warn(message: string) | Proceed(plan: Plan)

  /** What the user is shown: a warning, the success box for a file written with
      the given parameters, or the error box with the exception's message. */
  datatype Outcome =
    | Warned(message: string)
    | Saved(path: string, width: int, height: int, mode: string, saveFormat: string, quality: int)
    | Failed(reason: string)

  const NoImageLoaded: string := "No image loaded!"
  const NoOutputFolder: string := "No output folder selected!"
  const InvalidDimensions: string := "Please enter valid dimensions!"
  const NoOutputName: string := "Please enter an output file name!"

  // ---------------------------------------------------------------- formats

  /** The text of a format box entry. */
  function Label(f: Format): string {
    match f
    case JPEG => "JPEG"
    case PNG => "PNG"
    case BMP => "BMP"
    case GIF => "GIF"
  }

  /** `format_combo.currentText().lower()`, used as the file extension (main.py:232). */
  function Extension(f: Format): (r: string)
    ensures |r| == |Label(f)|
    ensures forall i :: 0 <= i < |r| ==> !('A' <= r[i] <= 'Z')
  {
    Lower(Label(f))
  }

  /** `output_format.upper()`, the format name given to `save` (main.py:248). */
  function SaveFormat(f: Format): (r: string)
    ensures |r| == |Label(f)|
    ensures forall i :: 0 <= i < |r| ==> !('a' <= r[i] <= 'z')
  {
    Upper(Extension(f))
  }

  /** The extension of each format is its lower-case name. */
  lemma ExtensionNames(f: Format)
    ensures Extension(f) == match f
      case JPEG => "jpeg"
      case PNG => "png"
      case BMP => "bmp"
      case GIF => "gif"
  {
    var e := Extension(f);
    match f
    case JPEG => assert e == [e[0], e[1], e[2], e[3]];
    case PNG => assert e == [e[0], e[1], e[2]];
    case BMP => assert e == [e[0], e[1], e[2]];
    case GIF => assert e == [e[0], e[1], e[2]];
  }

  /** Lower-casing and upper-casing again gives back the box entry itself:
      `save` receives one of JPEG, PNG, BMP, GIF. */
  lemma SaveFormatIsLabel(f: Format)
    ensures SaveFormat(f) == Label(f)
    ensures SaveFormat(f) in {"JPEG", "PNG", "BMP", "GIF"}
  {
    UpperOfLower(Label(f));
    var l := Label(f);
    assert forall i :: 0 <= i < |l| ==> 'A' <= l[i] <= 'Z';
    UpperOfUpperCase(l);
  }

  /** The extension is `jpeg` exactly for the JPEG entry. */
  lemma JpegExtension(f: Format)
    ensures Extension(f) == "jpeg" <==> f == JPEG
  {
    ExtensionNames(f);
  }

  // ---------------------------------------------------------------- dimensions

  /** `int(size * (percent / 100))` for a non-negative size, computed exactly. */
  function ScaledDimension(size: nat, percent: SliderValue): (r: nat)
    ensures r * 100 <= size * percent < r * 100 + 100
    ensures r <= size
  {
    size * percent / 100
  }

  /** The scaled dimension is the floor of the exact rational product. */
  lemma ScaledIsFloor(size: nat, percent: SliderValue)
    ensures ScaledDimension(size, percent) == ((size * percent) as real / 100.0).Floor
  {
    var r := ScaledDimension(size, percent);
    var x := (size * percent) as real / 100.0;
    assert r as real <= x < r as real + 1.0;
  }

  /** At the slider's default, 100, the size is unchanged (main.py:77). */
  lemma FullScaleKeepsSize(size: nat)
    ensures ScaledDimension(size, 100) == size
  {
  }

  /** A larger percentage never gives a smaller dimension. */
  lemma ScaledMonotone(size: nat, p: SliderValue, q: SliderValue)
    requires p <= q
    ensures ScaledDimension(size, p) <= ScaledDimension(size, q)
  {
    assert size * p <= size * q by {
      assert size * q == size * p + size * (q - p);
    }
  }

  /** The size requested from `resize`: scaled in percentage mode (main.py:219-222);
      in dimensions mode the two texts read with `int()`, `None` when either fails
      (main.py:224-229). */
  function TargetSize(image: ImageInfo, c: Controls): (r: Option<(int, int)>)
    ensures c.resizeMethod == ByPercentage ==> r.Some?
    ensures c.resizeMethod == ByDimensions ==>
      (r.Some? <==> ParseInt(c.widthText).Some? && ParseInt(c.heightText).Some?)
    ensures c.resizeMethod == ByDimensions && r.Some? ==>
      r.value == (ParseInt(c.widthText).value, ParseInt(c.heightText).value)
  {
    match c.resizeMethod
    case ByPercentage =>
      Some((ScaledDimension(image.width, c.resizePercent), ScaledDimension(image.height, c.resizePercent)))
    case ByDimensions =>
      match ParseInt(c.widthText)
      case None => None
      case Some(w) =>
        match ParseInt(c.heightText)
        case None => None
        case Some(h) => Some((w, h))
  }

  /** The JPEG colour-mode rule (main.py:245). */
  predicate NeedsRGB(extension: string, mode: string)
    ensures NeedsRGB(extension, mode) ==> extension == "jpeg" && mode != "RGB"
  {
    extension == "jpeg" && (mode == "RGBA" || mode == "P")
  }

  /** `f"{folder}/{name}.{extension}"` (main.py:239). */
  function OutputPath(folder: string, name: string, extension: string): (r: string)
    ensures |r| == |folder| + |name| + |extension| + 2
    ensures r[..|folder|] == folder && r[|folder|] == '/'
    ensures r[|folder| + 1..|folder| + 1 + |name|] == name
    ensures r[|r| - |extension| - 1] == '.' && r[|r| - |extension|..] == extension
  {
    folder + "/" + name + "." + extension
  }

  // ---------------------------------------------------------------- the decision

  /** The guards of `process_image`, in the order the code checks them, and the
      plan they leave when all pass. `folder` models `self.output_folder`, which
      counts as missing when it is `None` or empty. */
  function Decide(image: Option<ImageInfo>, folder: Option<string>, c: Controls): (d: Decision)
    ensures d.Proceed? ==> image.Some? && folder.Some? && folder.value != "" && c.outputName != ""
  {
    if image.None? then Warn(NoImageLoaded)
    else if folder.None? || folder.value == "" then Warn(NoOutputFolder)
    else
      match TargetSize(image.value, c)
      case None => Warn(InvalidDimensions)
      case Some(size) =>
        if c.outputName == "" then Warn(NoOutputName)
        else
          var ext := Extension(c.format);
          Proceed(Plan(size.0, size.1, NeedsRGB(ext, image.value.mode),
                       OutputPath(folder.value, c.outputName, ext), Upper(ext), c.quality))
  }

  /** The mode of the image handed to `save`. */
  function SavedMode(plan: Plan, sourceMode: string): string {
    if plan.convertToRGB then "RGB" else sourceMode
  }

  /** The whole of `process_image`: the guards, then `resize`, the optional
      `convert`, and `save`; the first call that raises ends it in the error box. */
  function Run(image: Option<ImageInfo>, folder: Option<string>, c: Controls, backend: Backend): (r: Outcome)
    ensures Decide(image, folder, c).Warn? ==> r == Warned(Decide(image, folder, c).message)
    ensures r.Saved? ==>
      Decide(image, folder, c).Proceed? && backend.resizeError.None? && backend.saveError.None?
    ensures r.Failed? ==>
      Decide(image, folder, c).Proceed? &&
      Some(r.reason) in {backend.resizeError, backend.convertError, backend.saveError}
  {
    match Decide(image, folder, c)
    case Warn(m) => Warned(m)
    case Proceed(p) =>
      if backend.resizeError.Some? then Failed(backend.resizeError.value)
      else if p.convertToRGB && backend.convertError.Some? then Failed(backend.convertError.value)
      else if backend.saveError.Some? then Failed(backend.saveError.value)
      else Saved(p.path, p.width, p.height, SavedMode(p, image.value.mode), p.saveFormat, p.quality)
  }
}
