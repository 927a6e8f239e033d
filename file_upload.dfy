/** The file-upload hook: the size and type check, and the upload state it steps through. */
module FileUpload {
  import opened Wrappers
  import opened Text
  import opened Constants
  import opened ImportUtils

  /** The browser `File`: name, size in bytes and MIME type. */
  datatype FileInfo = FileInfo(name: string, size: nat, mimeType: string)

  /** `SUPPORTED_TYPES`: two MIME types and two extensions, in one list. */
  const SupportedTypes: seq<string> := ["text/csv", "application/json", ".csv", ".json"]

  const InvalidTypeMessage: string := "Invalid file type. Please upload a CSV or JSON file."

  /** The size message; the size in MiB with two decimals is given by `formatMb`. */
  function TooLargeMessage(size: nat, formatMb: nat -> string): string {
    "File size exceeds 10MB limit. Current size: " + formatMb(size) + "MB"
  }

  /** `'.' + name.split('.').pop().toLowerCase()` */
  function DottedExtension(name: string): string {
    "." + Extension(name)
  }

  /** The dotted extension is a dot and then the lower-cased text after the name's last dot. */
  lemma DottedExtensionShape(name: string)
    ensures var e := DottedExtension(name);
      && |e| >= 1 && e[0] == '.' && '.' !in e[1..]
      && forall k :: 1 <= k < |e| ==> e[k] == LowerChar(name[|name| - |e| + 1 + (k - 1)])
  {
    var seg := LastSegment(name, '.');
    var e := DottedExtension(name);
    assert e[1..] == ToLower(seg);
    forall c | c in e[1..] ensures c != '.' {
      var k :| 0 <= k < |seg| && e[1..][k] == c;
      assert seg[k] != '.';
    }
  }

  predicate TypeAccepted(file: FileInfo) {
    file.mimeType in SupportedTypes || DottedExtension(file.name) in SupportedTypes
  }

  /** `validateFile`: the size is checked first, then the type; None means the file is accepted. */
  function ValidateFile(file: FileInfo, formatMb: nat -> string): (r: Option<string>)
    ensures r.Some? ==> r.value != ""
  {
    if file.size > MaxFileSize then Some(TooLargeMessage(file.size, formatMb))
    else if !TypeAccepted(file) then Some(InvalidTypeMessage)
    else None
  }

  /** A file passes iff it is small enough and of a supported type; otherwise the first failing check's message. */
  lemma ValidateFileIff(file: FileInfo, formatMb: nat -> string)
    ensures var r := ValidateFile(file, formatMb);
      && (r.None? <==> file.size <= MaxFileSize && TypeAccepted(file))
      && (file.size > MaxFileSize ==> r == Some(TooLargeMessage(file.size, formatMb)))
      && (file.size <= MaxFileSize && !TypeAccepted(file) ==> r == Some(InvalidTypeMessage))
  {
  }

  /** Exactly 10 MiB is still accepted; one byte more is not, whatever the type. */
  lemma SizeLimitBoundary(name: string, mimeType: string, formatMb: nat -> string)
    ensures ValidateFile(FileInfo(name, 10 * 1024 * 1024 + 1, mimeType), formatMb).Some?
    ensures ValidateFile(FileInfo(name, 10 * 1024 * 1024, "text/csv"), formatMb).None?
  {
  }

  /** The extension is compared lower-cased: an upper-case `.CSV` name with no MIME type passes. */
  lemma UpperCaseExtensionAccepted(formatMb: nat -> string)
    ensures ValidateFile(FileInfo("DATA.CSV", 10, ""), formatMb).None?
  {
    UpperCaseExtension();
  }

  lemma UpperCaseExtension()
    ensures DottedExtension("DATA.CSV") == ".csv"
  {
    UpperCaseSegment();
    assert ToLower("CSV") == "csv";
  }

  lemma UpperCaseSegment()
    ensures LastSegment("DATA.CSV", '.') == "CSV"
  {
    assert "DATA.CSV" == "DATA" + ['.'] + "CSV";
    LastSegmentAfter("DATA", '.', "CSV");
  }

  /** The progress values the upload loop writes: 0, 10, ..., 10 * (count - 1). */
  function ProgressSteps(count: nat): (r: seq<nat>)
    ensures |r| == count
    ensures forall k :: 0 <= k < count ==> r[k] == 10 * k
  {
    seq(count, k requires 0 <= k < count => 10 * k)
  }

  /** The full run of the loop climbs strictly from 0 to 100. */
  lemma FullProgressClimbs()
    ensures var p := ProgressSteps(11);
      p[0] == 0 && p[10] == 100 && forall j, k :: 0 <= j < k < 11 ==> p[j] < p[k]
  {
  }

  /** `useFileUpload`'s `uploadState`, plus the record of every progress value written. */
  class FileUploadState {
    var isUploading: bool
    var progress: nat
    var error: Option<string>
    var fileName: Option<string>
    var fileSize: Option<nat>
    ghost var progressLog: seq<nat>

    predicate IsInitial()
      reads this
    {
      !isUploading && progress == 0 && error.None? && fileName.None? && fileSize.None?
    }

    constructor()
      ensures IsInitial() && progressLog == []
    {
      isUploading := false;
      progress := 0;
      error := None;
      fileName := None;
      fileSize := None;
      progressLog := [];
    }

    /**
     * `uploadFile`: start uploading, check the file, climb through the progress values and
     * finish; a rejected file ends with the message recorded and is reported as a failure.
     */
    method UploadFile(file: FileInfo, formatMb: nat -> string) returns (r: Result<FileInfo, string>)
      modifies this
      ensures fileName == Some(file.name) && fileSize == Some(file.size) && !isUploading
      ensures ValidateFile(file, formatMb).Some? ==>
        && r == Failure(ValidateFile(file, formatMb).value)
        && progress == 0 && error == ValidateFile(file, formatMb)
        && progressLog == old(progressLog)
      ensures ValidateFile(file, formatMb).None? ==>
        && r == Success(file)
        && progress == 100 && error == None
        && progressLog == old(progressLog) + ProgressSteps(11)
    {
      isUploading, progress, error, fileName, fileSize := true, 0, None, Some(file.name), Some(file.size);
      var validationError := ValidateFile(file, formatMb);
      if validationError.Some? {
        isUploading, progress, error := false, 0, validationError;
        return Failure(validationError.value);
      }
      SimulateProgress();
      isUploading, progress := false, 100;
      r := Success(file);
    }

    /** The simulated transfer: progress 0, 10, ..., 100, one value after another. */
    method SimulateProgress()
      modifies this
      ensures progressLog == old(progressLog) + ProgressSteps(11) && progress == 100
      ensures isUploading == old(isUploading) && error == old(error)
      ensures fileName == old(fileName) && fileSize == old(fileSize)
    {
      var i := 0;
      ghost var steps := 0;
      while i <= 100
        invariant 0 <= steps <= 11 && i == 10 * steps
        invariant progressLog == old(progressLog) + ProgressSteps(steps)
        invariant isUploading == old(isUploading) && error == old(error)
        invariant fileName == old(fileName) && fileSize == old(fileSize)
        invariant steps > 0 ==> progress == 10 * (steps - 1)
      {
        progress := i;
        assert ProgressSteps(steps + 1) == ProgressSteps(steps) + [i];
        progressLog := progressLog + [i];
        i, steps := i + 10, steps + 1;
      }
    }

    /** `resetUpload` */
    method ResetUpload()
      modifies this
      ensures IsInitial() && progressLog == old(progressLog)
    {
      isUploading, progress, error, fileName, fileSize := false, 0, None, None, None;
    }
  }
}
