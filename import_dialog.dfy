/**
 * The import wizard: select a file (step 0), preview and configure (step 1), import (step 2).
 * Reading and parsing the file is outside the model: `load` is what `importFromFile` yields for
 * the detected format, and `outcome` is how the `onImport` call ended.
 */
module ImportDialog {
  import opened Wrappers
  import opened Text
  import opened Types
  import opened ImportUtils

  const ListedErrorLimit: nat := 5

  /** The wizard's state cells. */
  class ImportWizard {
    var activeStep: nat
    var preview: Option<ImportPreview>
    var importOptions: ImportOptions
    var isImporting: bool
    var importError: Option<string>

    /** Step 0, no preview, CSV with duplicates skipped and a real import. */
    constructor()
      ensures activeStep == 0 && preview == None && !isImporting && importError == None
      ensures importOptions == ImportOptions(Csv, SkipDuplicates, Some(false))
    {
      activeStep := 0;
      preview := None;
      importOptions := ImportOptions(Csv, SkipDuplicates, Some(false));
      isImporting := false;
      importError := None;
    }

    /** The Import button is enabled iff there is a preview with a valid row and no import is running. */
    predicate ImportEnabled()
      reads this
      ensures ImportEnabled() ==> preview.Some? && !isImporting
      ensures preview.Some? && !isImporting && preview.value.validRows == |preview.value.tickets| ==>
        (ImportEnabled() <==> preview.value.tickets != [])
    {
      preview.Some? && preview.value.validRows != 0 && !isImporting
    }

    /**
     * `handleFileSelect`: detect the format and remember it, then load the preview and move to
     * step 1. A failure records its message; step and preview stay, and a detected format stays set.
     */
    method HandleFileSelect(fileName: string, mimeType: string, load: Format -> Result<ImportPreview, string>)
      modifies this
      ensures isImporting == old(isImporting)
      ensures Selected(DetectFileFormat(fileName, mimeType), load, old(activeStep), old(preview), old(importOptions))
    {
      ApplySelection(DetectFileFormat(fileName, mimeType), load);
    }

    /** The same, once the format detection has given its verdict. */
    method ApplySelection(detected: Result<Format, string>, load: Format -> Result<ImportPreview, string>)
      modifies this
      ensures isImporting == old(isImporting)
      ensures Selected(detected, load, old(activeStep), old(preview), old(importOptions))
    {
      if detected.Failure? {
        importError := Some(detected.error);
        return;
      }
      var format := detected.value;
      importOptions := importOptions.(format := format);
      var previewData := load(format);
      if previewData.Failure? {
        importError := Some(previewData.error);
        return;
      }
      preview := Some(previewData.value);
      activeStep := 1;
      importError := None;
    }

    /** The state a file selection leaves, given the detection verdict and the state before it. */
    predicate Selected(detected: Result<Format, string>, load: Format -> Result<ImportPreview, string>,
                       step0: nat, preview0: Option<ImportPreview>, options0: ImportOptions)
      reads this
    {
      if detected.Failure? then
        importError == Some(detected.error) && activeStep == step0 && preview == preview0 && importOptions == options0
      else
        var format := detected.value;
        && importOptions == options0.(format := format)
        && (load(format).Failure? ==>
              importError == Some(load(format).error) && activeStep == step0 && preview == preview0)
        && (load(format).Success? ==>
              importError == None && activeStep == 1 && preview == Some(load(format).value))
    }

    /**
     * `handleImport`: with no preview nothing happens. Otherwise only the preview's valid tickets
     * are handed to `onImport` (returned as `sent`), step 2 follows a success, a failure records
     * its message, and the busy flag is down again in both cases.
     */
    method HandleImport(outcome: Outcome<string>) returns (sent: Option<(seq<Ticket>, ImportOptions)>)
      modifies this
      ensures old(preview).None? ==>
        && sent == None && activeStep == old(activeStep) && isImporting == old(isImporting)
        && importError == old(importError)
      ensures old(preview).Some? ==>
        && sent == Some((old(preview).value.tickets, old(importOptions)))
        && !isImporting
        && (outcome.Pass? ==> activeStep == 2 && importError == None)
        && (outcome.Fail? ==> activeStep == old(activeStep) && importError == Some(outcome.error))
      ensures preview == old(preview) && importOptions == old(importOptions)
    {
      if preview.None? {
        return None;
      }
      isImporting := true;
      importError := None;
      sent := Some((preview.value.tickets, importOptions));
      match outcome {
        case Pass => activeStep := 2;
        case Fail(e) => importError := Some(e);
      }
      isImporting := false;
    }

    /** The Back button of step 1. */
    method GoBack()
      modifies this
      ensures activeStep == 0
      ensures preview == old(preview) && importOptions == old(importOptions)
      ensures isImporting == old(isImporting) && importError == old(importError)
    {
      activeStep := 0;
    }

    /** `handleClose`: everything back to the start except the chosen options. */
    method HandleClose()
      modifies this
      ensures activeStep == 0 && preview == None && importError == None && !isImporting
      ensures importOptions == old(importOptions)
    {
      activeStep := 0;
      preview := None;
      importError := None;
      isImporting := false;
    }
  }

  /** The errors listed in the preview: the first five. */
  function ListedErrors(errors: seq<ImportError>): (r: seq<ImportError>)
    ensures |r| <= ListedErrorLimit
    ensures r <= errors
    ensures |errors| <= ListedErrorLimit ==> r == errors
  {
    if |errors| <= ListedErrorLimit then errors else errors[..ListedErrorLimit]
  }

  /** `... and N more errors`, shown when more than five were found. */
  function MoreErrorsNote(errors: seq<ImportError>): (r: Option<string>)
    ensures r.Some? <==> |errors| > ListedErrorLimit
  {
    if |errors| > ListedErrorLimit then Some("... and " + NatToString(|errors| - ListedErrorLimit) + " more errors") else None
  }

  /** The listed errors and the count in the note account for every error, none twice. */
  lemma ErrorListAccountsForAll(errors: seq<ImportError>)
    ensures |ListedErrors(errors)| + (if |errors| > ListedErrorLimit then |errors| - ListedErrorLimit else 0) == |errors|
    ensures MoreErrorsNote(errors).Some? ==>
      MoreErrorsNote(errors).value == "... and " + NatToString(|errors| - |ListedErrors(errors)|) + " more errors"
  {
  }

  /**
   * One listed line: `Row n: ` before the message when the row is truthy. A row of 0 is falsy and
   * React renders the 0 itself; rows are numbered from 1, so that case does not arise.
   */
  function ErrorLine(e: ImportError): string {
    match e.row
    case None => e.message
    case Some(n) => if n == 0 then "0" + e.message else "Row " + NatToString(n) + ": " + e.message
  }

  /** Every line ends with the error's message, and it names the row when there is one. */
  lemma ErrorLineShape(e: ImportError)
    ensures |ErrorLine(e)| >= |e.message| && ErrorLine(e)[|ErrorLine(e)| - |e.message|..] == e.message
    ensures e.row.Some? && e.row.value > 0 ==> ErrorLine(e)[..4] == "Row "
  {
  }
}
