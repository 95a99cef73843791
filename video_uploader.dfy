/**
 * The video picker of both forms: it checks a chosen file's type and size,
 * shows a preview, runs a simulated progress count to 100 and then hands the
 * file to the form; removing the video clears all of that.
 */
module VideoUploader {
  import opened Wrappers
  import opened Text

  /** A browser `File`: name, MIME type and size in bytes. */
  datatype File = File(name: string, mimetype: string, size: nat)

  /** The preview the picker shows: the file, its object URL, its name and size. */
  datatype Preview = Preview(file: File, url: string, name: string, size: nat)

  const MiB: nat := 1024 * 1024
  const DefaultMaxSize: nat := 500 * 1024 * 1024
  const DefaultFormats: seq<string> := ["video/mp4", "video/quicktime", "video/x-msvideo", "video/webm"]
  const InvalidFormatMessage: string := "Invalid file format. Please upload a video file."
  const UploadedMessage: string := "Video uploaded successfully!"

  function TooLargeMessage(maxSize: nat): string {
    "File size exceeds " + NatToString(maxSize / MiB) + "MB limit."
  }

  /** `validateFile`: the format is checked first, then the size; the error message on rejection. */
  function ValidateFile(formats: seq<string>, maxSize: nat, file: File): (r: Result<(), string>)
    ensures r.Ok? <==> file.mimetype in formats && file.size <= maxSize
    ensures file.mimetype !in formats ==> r == Err(InvalidFormatMessage)
    ensures file.mimetype in formats && file.size > maxSize ==> r == Err(TooLargeMessage(maxSize))
  {
    if file.mimetype !in formats then Err(InvalidFormatMessage)
    else if file.size > maxSize then Err(TooLargeMessage(maxSize))
    else Ok(())
  }

  /** The progress values the simulated upload shows: 10, 20, ..., 100. */
  function ProgressTicks(): (r: seq<int>)
    ensures |r| == 10
    ensures forall i :: 0 <= i < |r| ==> r[i] == 10 * (i + 1)
  {
    seq(10, i requires 0 <= i < 10 => 10 * (i + 1))
  }

  /** The simulated progress stops at the first value reaching 100, which is 100 itself. */
  lemma ProgressStopsAtHundred()
    ensures ProgressTicks()[|ProgressTicks()| - 1] == 100
    ensures forall i :: 0 <= i < |ProgressTicks()| - 1 ==> ProgressTicks()[i] < 100
    ensures forall i, j :: 0 <= i < j < |ProgressTicks()| ==> ProgressTicks()[i] < ProgressTicks()[j]
  {
  }

  /** The interval of `handleFile`: add 10 until the count reaches 100, reporting each value. */
  method SimulateProgress() returns (ticks: seq<int>)
    ensures ticks == ProgressTicks()
  {
    var progress := 0;
    ticks := [];
    while true
      invariant 0 <= progress <= 90 && progress % 10 == 0
      invariant |ticks| == progress / 10
      invariant forall i :: 0 <= i < |ticks| ==> ticks[i] == 10 * (i + 1)
      decreases 100 - progress
    {
      progress := progress + 10;
      ticks := ticks + [progress];
      if progress >= 100 {
        break;
      }
    }
  }

  class Uploader {
    const maxSize: nat
    const formats: seq<string>
    var preview: Option<Preview>
    var uploadProgress: int
    /** Every value shown by the progress bar, in order. */
    var progressShown: seq<int>
    /** Every call of `onVideoSelect`, in order: the file, or `None` for a removal. */
    var selections: seq<Option<File>>
    /** The toasts shown, in order. */
    var notices: seq<string>

    /**
     * The picker mounted with its props; `existing` is the form's current video,
     * if any. A prop left out takes its default: 500 MiB and the four formats.
     */
    constructor (maxSize: Option<nat>, formats: Option<seq<string>>, existing: Option<Preview>)
      ensures this.maxSize == (if maxSize.Some? then maxSize.value else DefaultMaxSize)
      ensures this.formats == (if formats.Some? then formats.value else DefaultFormats)
      ensures preview == existing && uploadProgress == 0
      ensures progressShown == [] && selections == [] && notices == []
    {
      this.maxSize := maxSize.GetOr(DefaultMaxSize);
      this.formats := formats.GetOr(DefaultFormats);
      preview := existing;
      uploadProgress := 0;
      progressShown := [];
      selections := [];
      notices := [];
    }

    /**
     * `handleFile`: a rejected file only raises its error; an accepted one gets a
     * preview, runs the progress to 100 and is handed to the form once.
     */
    method HandleFile(file: File, objectUrl: string)
      modifies this
      ensures match ValidateFile(formats, maxSize, file)
        case Err(m) =>
          && notices == old(notices) + [m]
          && preview == old(preview) && uploadProgress == old(uploadProgress)
          && progressShown == old(progressShown) && selections == old(selections)
        case Ok(_) =>
          && preview == Some(Preview(file, objectUrl, file.name, file.size))
          && progressShown == old(progressShown) + ProgressTicks()
          && uploadProgress == 100
          && selections == old(selections) + [Some(file)]
          && notices == old(notices) + [UploadedMessage]
    {
      var valid := ValidateFile(formats, maxSize, file);
      if valid.Err? {
        notices := notices + [valid.error];
        return;
      }
      preview := Some(Preview(file, objectUrl, file.name, file.size));
      var ticks := SimulateProgress();
      progressShown := progressShown + ticks;
      uploadProgress := ticks[|ticks| - 1];
      selections := selections + [Some(file)];
      notices := notices + [UploadedMessage];
    }

    /** `handleDrop` / `handleFileSelect`: only the first file is handled; none does nothing. */
    method HandleFiles(files: seq<File>, objectUrl: string)
      modifies this
      ensures files == [] ==>
        && preview == old(preview) && uploadProgress == old(uploadProgress)
        && progressShown == old(progressShown) && selections == old(selections) && notices == old(notices)
      ensures files != [] ==> match ValidateFile(formats, maxSize, files[0])
        case Err(m) =>
          && notices == old(notices) + [m]
          && preview == old(preview) && uploadProgress == old(uploadProgress)
          && progressShown == old(progressShown) && selections == old(selections)
        case Ok(_) =>
          && preview == Some(Preview(files[0], objectUrl, files[0].name, files[0].size))
          && progressShown == old(progressShown) + ProgressTicks()
          && uploadProgress == 100
          && selections == old(selections) + [Some(files[0])]
          && notices == old(notices) + [UploadedMessage]
    {
      if |files| > 0 {
        HandleFile(files[0], objectUrl);
      }
    }

    /** `removeVideo`: no preview, progress 0, and the form is told there is no video. */
    method RemoveVideo()
      modifies this
      ensures preview.None? && uploadProgress == 0
      ensures selections == old(selections) + [None]
      ensures progressShown == old(progressShown) + [0]
      ensures notices == old(notices)
    {
      preview := None;
      uploadProgress := 0;
      progressShown := progressShown + [0];
      selections := selections + [None];
    }
  }

  /** A file of exactly the limit is accepted; one byte more is refused for its size. */
  lemma SizeBoundary(formats: seq<string>, maxSize: nat, f: File)
    requires f.mimetype in formats
    ensures ValidateFile(formats, maxSize, f.(size := maxSize)).Ok?
    ensures ValidateFile(formats, maxSize, f.(size := maxSize + 1)) == Err(TooLargeMessage(maxSize))
  {
  }

  /** A file of the wrong type is refused for its type whatever its size. */
  lemma FormatCheckedFirst(formats: seq<string>, maxSize: nat, f: File)
    requires f.mimetype !in formats
    ensures ValidateFile(formats, maxSize, f) == Err(InvalidFormatMessage)
  {
  }
}
