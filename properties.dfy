/** What `process_image` promises, stated over the model in `Planning`. */
module ProcessProperties {
  import opened Optional
  import opened PyStr
  import opened Planning

  /** `self.output_folder` holds a usable folder (the test `not self.output_folder`, main.py:215). */
  predicate HasFolder(folder: Option<string>) {
    folder.Some? && folder.value != ""
  }

  /** The two controls agree on everything but the width and height texts. */
  predicate SameButTexts(c: Controls, d: Controls) {
    c == d.(widthText := c.widthText, heightText := c.heightText)
  }

  // ---------------------------------------------------------------- the guards and their order

  /** Without an image the warning is `No image loaded!`, whatever else is set:
      this guard comes before every other one (main.py:211-213). */
  lemma NoImageWarnsFirst(folder: Option<string>, c: Controls, backend: Backend)
    ensures Run(None, folder, c, backend) == Warned(NoImageLoaded)
  {
  }

  /** With an image but no folder the warning is `No output folder selected!`,
      whatever the resize fields and the file name hold (main.py:215-217). */
  lemma NoFolderWarns(image: ImageInfo, folder: Option<string>, c: Controls, backend: Backend)
    requires !HasFolder(folder)
    ensures Run(Some(image), folder, c, backend) == Warned(NoOutputFolder)
  {
  }

  /** In dimensions mode, a width or height text that `int()` rejects gives
      `Please enter valid dimensions!`, before the file name is looked at
      (main.py:224-229). */
  lemma BadDimensionsWarnBeforeName(image: ImageInfo, folder: Option<string>, c: Controls, backend: Backend)
    requires HasFolder(folder) && c.resizeMethod == ByDimensions
    requires ParseInt(c.widthText).None? || ParseInt(c.heightText).None?
    ensures Run(Some(image), folder, c, backend) == Warned(InvalidDimensions)
  {
  }

  /** An empty file name, once the earlier guards pass, gives
      `Please enter an output file name!` (main.py:235-237). */
  lemma EmptyNameWarns(image: ImageInfo, folder: Option<string>, c: Controls, backend: Backend)
    requires HasFolder(folder) && TargetSize(image, c).Some? && c.outputName == ""
    ensures Run(Some(image), folder, c, backend) == Warned(NoOutputName)
  {
  }

  /** A warning is shown exactly when one of the four guards fails, it is the
      message of the first guard that fails, and then nothing is resized or saved. */
  lemma WarningIffGuardFails(image: Option<ImageInfo>, folder: Option<string>, c: Controls, backend: Backend)
    ensures Run(image, folder, c, backend).Warned? <==>
      image.None? || !HasFolder(folder) || TargetSize(image.value, c).None? || c.outputName == ""
    ensures Run(image, folder, c, backend).Warned? ==>
      Run(image, folder, c, backend).message ==
        if image.None? then NoImageLoaded
        else if !HasFolder(folder) then NoOutputFolder
        else if TargetSize(image.value, c).None? then InvalidDimensions
        else NoOutputName
    ensures Run(image, folder, c, backend).Warned? ==> Decide(image, folder, c).Warn?
  {
  }

  // ---------------------------------------------------------------- target dimensions

  /** In percentage mode the target is the truncated product `size * p / 100`
      in each axis, and never larger than the source (main.py:219-222). */
  lemma PercentageTarget(image: ImageInfo, c: Controls)
    requires c.resizeMethod == ByPercentage
    ensures TargetSize(image, c).Some?
    ensures var (w, h) := TargetSize(image, c).value;
      && w * 100 <= image.width * c.resizePercent < w * 100 + 100
      && h * 100 <= image.height * c.resizePercent < h * 100 + 100
      && 0 <= w <= image.width && 0 <= h <= image.height
  {
  }

  /** At the default percentage, 100, the target is the source size exactly (main.py:77). */
  lemma DefaultPercentageKeepsSize(image: ImageInfo, c: Controls)
    requires c.resizeMethod == ByPercentage && c.resizePercent == 100
    ensures TargetSize(image, c) == Some((image.width, image.height))
  {
    FullScaleKeepsSize(image.width);
    FullScaleKeepsSize(image.height);
  }

  /** In dimensions mode the numbers typed are used verbatim: no positivity
      check and no clamping, so zero and negative sizes reach `resize`
      (main.py:225-226, main.py:242). */
  lemma DimensionsVerbatim(image: ImageInfo, c: Controls, w: int, h: int)
    requires c.resizeMethod == ByDimensions
    requires c.widthText == FormatInt(w) && c.heightText == FormatInt(h)
    ensures TargetSize(image, c) == Some((w, h))
  {
    ParseFormatted(w);
    ParseFormatted(h);
  }

  /** In percentage mode the width and height texts are never read. */
  lemma PercentageIgnoresTexts(image: Option<ImageInfo>, folder: Option<string>, c: Controls, d: Controls, backend: Backend)
    requires c.resizeMethod == ByPercentage && SameButTexts(c, d)
    ensures Run(image, folder, c, backend) == Run(image, folder, d, backend)
  {
  }

  /** A computed zero is not rejected: 1% of a 50 x 50 image asks `resize` for 0 x 0. */
  lemma ZeroTargetNotRejected(folder: string, c: Controls)
    requires folder != "" && c.outputName != ""
    requires c.resizeMethod == ByPercentage && c.resizePercent == 1
    ensures Decide(Some(ImageInfo(50, 50, "RGB")), Some(folder), c).Proceed?
    ensures var p := Decide(Some(ImageInfo(50, 50, "RGB")), Some(folder), c).plan;
      p.width == 0 && p.height == 0
  {
  }

  // ---------------------------------------------------------------- colour mode, path, format, quality

  /** The image is converted to RGB if and only if the format is JPEG and the
      mode is RGBA or P (main.py:245-246). */
  lemma ConvertIffJpegWithAlphaOrPalette(image: ImageInfo, folder: Option<string>, c: Controls)
    requires HasFolder(folder) && TargetSize(image, c).Some? && c.outputName != ""
    ensures Decide(Some(image), folder, c).Proceed?
    ensures Decide(Some(image), folder, c).plan.convertToRGB <==>
      c.format == JPEG && (image.mode == "RGBA" || image.mode == "P")
  {
    JpegExtension(c.format);
  }

  /** When every guard passes and no PIL call raises, the file written is
      `folder/name.ext` with the lower-case extension, its format the box entry
      itself, its quality the slider value, its size the target size, and its
      mode RGB for a JPEG of an RGBA or P image and the source mode otherwise
      (main.py:231-232, main.py:239-249). */
  lemma SavedFile(image: ImageInfo, folder: string, c: Controls)
    requires folder != "" && c.outputName != "" && TargetSize(image, c).Some?
    ensures var (w, h) := TargetSize(image, c).value;
      Run(Some(image), Some(folder), c, Backend(None, None, None)) ==
        Saved(
          folder + "/" + c.outputName + "." + Extension(c.format),
          w, h,
          if c.format == JPEG && (image.mode == "RGBA" || image.mode == "P") then "RGB" else image.mode,
          Label(c.format),
          c.quality)
    ensures Extension(c.format) in {"jpeg", "png", "bmp", "gif"}
    ensures Label(c.format) in {"JPEG", "PNG", "BMP", "GIF"}
    ensures 1 <= c.quality <= 100
  {
    JpegExtension(c.format);
    SaveFormatIsLabel(c.format);
    ExtensionNames(c.format);
  }

  /** `save` is never asked to write RGBA or P data as JPEG: the conversion has
      already happened. */
  lemma JpegNeverReceivesAlphaOrPalette(image: Option<ImageInfo>, folder: Option<string>, c: Controls, backend: Backend)
    requires Run(image, folder, c, backend).Saved?
    requires Run(image, folder, c, backend).saveFormat == "JPEG"
    ensures Run(image, folder, c, backend).mode !in {"RGBA", "P"}
  {
    SaveFormatIsLabel(c.format);
    JpegExtension(c.format);
    assert c.format == JPEG;
  }

  /** For PNG, BMP and GIF the mode reaches `save` unchanged. */
  lemma OtherFormatsKeepMode(image: ImageInfo, folder: Option<string>, c: Controls, backend: Backend)
    requires c.format != JPEG && Run(Some(image), folder, c, backend).Saved?
    ensures Run(Some(image), folder, c, backend).mode == image.mode
  {
    JpegExtension(c.format);
  }

  // ---------------------------------------------------------------- failures of the PIL calls

  /** A planned run ends in the error box exactly when a PIL call that is made
      raises, with the message of the first one: `resize`, then `convert` (made
      only when converting), then `save` (main.py:241-251). */
  lemma FailureIffCalledStepRaises(image: Option<ImageInfo>, folder: Option<string>, c: Controls, backend: Backend)
    requires Decide(image, folder, c).Proceed?
    ensures backend.resizeError.Some? ==>
      Run(image, folder, c, backend) == Failed(backend.resizeError.value)
    ensures backend.resizeError.None? && Decide(image, folder, c).plan.convertToRGB && backend.convertError.Some? ==>
      Run(image, folder, c, backend) == Failed(backend.convertError.value)
    ensures (backend.resizeError.None? && backend.saveError.Some? &&
             (!Decide(image, folder, c).plan.convertToRGB || backend.convertError.None?)) ==>
      Run(image, folder, c, backend) == Failed(backend.saveError.value)
    ensures Run(image, folder, c, backend).Saved? <==>
      backend.resizeError.None? && backend.saveError.None? &&
      (Decide(image, folder, c).plan.convertToRGB ==> backend.convertError.None?)
  {
  }

  /** Without a conversion, whether `convert` would have failed does not matter. */
  lemma ConvertErrorIrrelevantWithoutConversion(image: ImageInfo, folder: Option<string>, c: Controls, backend: Backend, e: Option<string>)
    requires c.format != JPEG || (image.mode != "RGBA" && image.mode != "P")
    ensures Run(Some(image), folder, c, backend) == Run(Some(image), folder, c, backend.(convertError := e))
  {
    JpegExtension(c.format);
  }

  // ---------------------------------------------------------------- a worked scenario

  /** A 1000 x 500 RGBA image at 50%, saved as JPEG at quality 80, becomes a
      500 x 250 RGB JPEG named `out.jpeg` in the chosen folder. */
  lemma HalfSizeRgbaToJpeg(folder: string)
    requires folder != ""
    ensures Run(Some(ImageInfo(1000, 500, "RGBA")), Some(folder),
                Controls(ByPercentage, 50, "", "", 80, JPEG, "out"), Backend(None, None, None))
      == Saved(folder + "/out.jpeg", 500, 250, "RGB", "JPEG", 80)
  {
    var c := Controls(ByPercentage, 50, "", "", 80, JPEG, "out");
    SavedFile(ImageInfo(1000, 500, "RGBA"), folder, c);
    ExtensionNames(JPEG);
    assert folder + "/" + "out" + "." + "jpeg" == folder + "/out.jpeg";
  }
}
