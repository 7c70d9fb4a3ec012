/** The `ImageProcessor` window's own state (main.py:30-32) and the three slots
    that use it: `load_image`, `select_output_folder` and `process_image`. */
module Processor {
  import opened Optional
  import opened PyStr
  import opened Planning

  class ImageProcessor {
    var imagePath: Option<string>
    var image: Option<ImageInfo>
    var outputFolder: Option<string>

    /** An image is only ever opened from a recorded path, and a folder is only
        ever recorded when the dialog returned one. */
    predicate Valid()
      reads this
    {
      && (image.Some? ==> imagePath.Some?)
      && (outputFolder.Some? ==> outputFolder.value != "")
    }

    /** A new window: no image, no path, no folder (main.py:30-32). */
    constructor ()
      ensures Valid()
      ensures imagePath == None && image == None && outputFolder == None
    {
      imagePath := None;
      image := None;
      outputFolder := None;
    }

    /** `load_image` (main.py:193-202). `fileName` is what the open dialog
        returned (empty when cancelled); `decoded` is what `Image.open` made of
        that file, `None` when it raised. The path is recorded before the file
        is opened, so a file that fails to open still replaces the path while
        the previous image stays. `loaded` says whether a new image is in place. */
    method LoadImage(fileName: string, decoded: Option<ImageInfo>) returns (loaded: bool)
      requires Valid()
      modifies this
      ensures Valid()
      ensures loaded <==> fileName != "" && decoded.Some?
      ensures imagePath == if fileName == "" then old(imagePath) else Some(fileName)
      ensures image == if loaded then decoded else old(image)
      ensures outputFolder == old(outputFolder)
    {
      loaded := false;
      if fileName != "" {
        imagePath := Some(fileName);
        if decoded.Some? {
          image := decoded;
          loaded := true;
        }
      }
    }

    /** `select_output_folder` (main.py:204-208): a cancelled dialog (empty
        result) keeps the folder; any other result replaces it. */
    method SelectOutputFolder(folder: string)
      requires Valid()
      modifies this`outputFolder
      ensures Valid()
      ensures outputFolder == if folder == "" then old(outputFolder) else Some(folder)
    {
      if folder != "" {
        outputFolder := Some(folder);
      }
    }

    /** `process_image` (main.py:210-251), step by step: the guards with their
        early returns, then `resize`, the JPEG conversion and `save`. It reads
        the window's fields and changes none of them. */
    method ProcessImage(c: Controls, backend: Backend) returns (outcome: Outcome)
      ensures outcome == Run(image, outputFolder, c, backend)
      ensures Valid() ==>
        (outcome == Warned(NoOutputFolder) <==> image.Some? && outputFolder.None?)
    {
      if image.None? {
        return Warned(NoImageLoaded);
      }
      if outputFolder.None? || outputFolder.value == "" {
        return Warned(NoOutputFolder);
      }
      var newWidth: int, newHeight: int;
      if c.resizeMethod == ByPercentage {
        newWidth := ScaledDimension(image.value.width, c.resizePercent);
        newHeight := ScaledDimension(image.value.height, c.resizePercent);
      } else {
        var w := ParseInt(c.widthText);
        if w.None? {
          return Warned(InvalidDimensions);
        }
        var h := ParseInt(c.heightText);
        if h.None? {
          return Warned(InvalidDimensions);
        }
        newWidth, newHeight := w.value, h.value;
      }
      var quality := c.quality;
      var outputFormat := Lower(Label(c.format));
      var outputName := c.outputName;
      if outputName == "" {
        return Warned(NoOutputName);
      }
      var outputPath := outputFolder.value + "/" + outputName + "." + outputFormat;

      if backend.resizeError.Some? {
        return Failed(backend.resizeError.value);
      }
      var mode := image.value.mode;
      if outputFormat == "jpeg" && (mode == "RGBA" || mode == "P") {
        if backend.convertError.Some? {
          return Failed(backend.convertError.value);
        }
        mode := "RGB";
      }
      if backend.saveError.Some? {
        return Failed(backend.saveError.value);
      }
      return Saved(outputPath, newWidth, newHeight, mode, Upper(outputFormat), quality);
    }
  }

  /** A window just opened warns `No image loaded!`; after a cancelled open
      dialog it still does; once an image and a folder are chosen and no file
      name is typed, the warning is about the file name. */
  method FirstUse(info: ImageInfo, c: Controls, backend: Backend) returns (first: Outcome, last: Outcome)
    requires c.resizeMethod == ByPercentage && c.outputName == ""
    ensures first == Warned(NoImageLoaded)
    ensures last == Warned(NoOutputName)
  {
    var window := new ImageProcessor();
    var loaded := window.LoadImage("", Some(info));
    first := window.ProcessImage(c, backend);
    loaded := window.LoadImage("photo.png", Some(info));
    window.SelectOutputFolder("/tmp/out");
    last := window.ProcessImage(c, backend);
  }
}
