/** The export hook: the empty-list check, the default file name, and the busy and error flags. */
module TicketExport {
  import opened Wrappers
  import opened Types
  import opened ExportUtils

  const NoTicketsMessage: string := "No tickets to export"

  /** What a successful export reports. */
  datatype ExportResult = ExportResult(success: bool, filename: string, format: string, count: nat)

  /** The options actually exported with: the file name defaults to the generated one. */
  function EffectiveOptions(options: ExportOptions, nowIso: string): (o: ExportOptions)
    ensures o.format == options.format && o.includeMetadata == options.includeMetadata
    ensures o.filename.Some? && o.filename.value != ""
    ensures options.filename.Some? && options.filename.value != "" ==> o.filename == options.filename
    ensures options.filename.None? || options.filename == Some("") ==>
      o.filename == Some(GenerateDefaultFilename(nowIso, options.format))
  {
    var name := if options.filename.Some? && options.filename.value != "" then options.filename.value
                else GenerateDefaultFilename(nowIso, options.format);
    options.(filename := Some(name))
  }

  /** The outcome of `exportTicketData` and the file it saves, if any. */
  function ExportOutcome(tickets: seq<Ticket>, options: ExportOptions, nowIso: string): (r: Result<(ExportResult, Download), string>)
    ensures tickets == [] ==> r == Failure(NoTicketsMessage)
    ensures tickets != [] && options.format != "csv" && options.format != "json" ==>
      r == Failure("Unsupported export format: " + options.format)
    ensures r.Success? ==>
      && r.value.0 == ExportResult(true, EffectiveOptions(options, nowIso).filename.value, options.format, |tickets|)
      && r.value.1 == ExportTickets(tickets, EffectiveOptions(options, nowIso), nowIso).value
      && r.value.1.filename == r.value.0.filename + "." + options.format
  {
    if tickets == [] then Failure(NoTicketsMessage)
    else
      var exportOptions := EffectiveOptions(options, nowIso);
      match ExportTickets(tickets, exportOptions, nowIso)
      case Failure(e) => Failure(e)
      case Success(file) => Success((ExportResult(true, exportOptions.filename.value, options.format, |tickets|), file))
  }

  /** With no name given, the CSV export of a day's tickets is saved as `tickets_<date>.csv.csv`. */
  lemma DefaultCsvNameGetsExtensionTwice(tickets: seq<Ticket>, date: string, time: string)
    requires tickets != [] && 'T' !in date
    ensures var r := ExportOutcome(tickets, ExportOptions("csv", Some(false), None), date + "T" + time);
      r.Success? && r.value.0.filename == "tickets_" + date + ".csv"
      && r.value.1.filename == "tickets_" + date + ".csv.csv"
  {
    DefaultFilenameOfIso(date, time, "csv");
  }

  /** `useTicketExport`: the busy flag and the last error. */
  class TicketExporter {
    var isExporting: bool
    var exportError: Option<string>

    constructor()
      ensures !isExporting && exportError.None?
    {
      isExporting := false;
      exportError := None;
    }

    /**
     * `exportTicketData`: clear the error, check, export, and record a failure's message
     * before rethrowing it; the busy flag is down again whatever happens.
     */
    method ExportTicketData(tickets: seq<Ticket>, options: ExportOptions, nowIso: string)
      returns (r: Result<ExportResult, string>, file: Option<Download>)
      modifies this
      ensures var outcome := ExportOutcome(tickets, options, nowIso);
        && (outcome.Success? ==> r == Success(outcome.value.0) && file == Some(outcome.value.1) && exportError.None?)
        && (outcome.Failure? ==> r == Failure(outcome.error) && file.None? && exportError == Some(outcome.error))
      ensures !isExporting
    {
      isExporting := true;
      exportError := None;
      file := None;
      if |tickets| == 0 {
        r := Failure(NoTicketsMessage);
      } else {
        var exportOptions := EffectiveOptions(options, nowIso);
        var saved := ExportTickets(tickets, exportOptions, nowIso);
        if saved.Failure? {
          r := Failure(saved.error);
        } else {
          file := Some(saved.value);
          r := Success(ExportResult(true, exportOptions.filename.value, options.format, |tickets|));
        }
      }
      if r.Failure? {
        exportError := Some(r.error);
      }
      isExporting := false;
    }

    /** `exportToCSV`: never with metadata. */
    method ExportToCSV(tickets: seq<Ticket>, filename: Option<string>, nowIso: string)
      returns (r: Result<ExportResult, string>, file: Option<Download>)
      modifies this
      ensures var outcome := ExportOutcome(tickets, ExportOptions("csv", Some(false), filename), nowIso);
        && (outcome.Success? ==> r == Success(outcome.value.0) && file == Some(outcome.value.1) && exportError.None?)
        && (outcome.Failure? ==> r == Failure(outcome.error) && file.None? && exportError == Some(outcome.error))
      ensures !isExporting
    {
      r, file := ExportTicketData(tickets, ExportOptions("csv", Some(false), filename), nowIso);
    }

    /** `exportToJSON`: metadata unless the caller says otherwise. */
    method ExportToJSON(tickets: seq<Ticket>, filename: Option<string>, includeMetadata: Option<bool>, nowIso: string)
      returns (r: Result<ExportResult, string>, file: Option<Download>)
      modifies this
      ensures var outcome := ExportOutcome(tickets, ExportOptions("json", Some(includeMetadata.GetOr(true)), filename), nowIso);
        && (outcome.Success? ==> r == Success(outcome.value.0) && file == Some(outcome.value.1) && exportError.None?)
        && (outcome.Failure? ==> r == Failure(outcome.error) && file.None? && exportError == Some(outcome.error))
      ensures !isExporting
    {
      r, file := ExportTicketData(tickets, ExportOptions("json", Some(includeMetadata.GetOr(true)), filename), nowIso);
    }

    /** `clearError` */
    method ClearError()
      modifies this
      ensures exportError.None? && isExporting == old(isExporting)
    {
      exportError := None;
    }
  }
}
