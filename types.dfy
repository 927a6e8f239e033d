/** The records of the ticket domain and of import/export. */
module Types {
  import opened Wrappers

  /** `Ticket`. The priority is a string: several paths store a priority without checking it. */
  datatype Ticket = Ticket(
    id: string,
    name: string,
    surname: string,
    company: string,
    email: string,
    description: string,
    priority: string,
    createdAt: string)

  /** `Omit<Ticket, 'id' | 'createdAt'>`: the editable fields. */
  datatype TicketData = TicketData(
    name: string,
    surname: string,
    company: string,
    email: string,
    description: string,
    priority: string)

  /** `Partial<Ticket>`: an absent field leaves the ticket's value in place. */
  datatype TicketPatch = TicketPatch(
    id: Option<string>,
    name: Option<string>,
    surname: Option<string>,
    company: Option<string>,
    email: Option<string>,
    description: Option<string>,
    priority: Option<string>,
    createdAt: Option<string>)

  /** `{ id, createdAt, ...data }` */
  function FromData(d: TicketData, id: string, createdAt: string): Ticket {
    Ticket(id, d.name, d.surname, d.company, d.email, d.description, d.priority, createdAt)
  }

  /** `{ ...ticket, ...data }` with every editable field supplied. */
  function WithData(t: Ticket, d: TicketData): Ticket {
    FromData(d, t.id, t.createdAt)
  }

  /** `{ ...ticket, ...patch }` */
  function Merge(t: Ticket, p: TicketPatch): Ticket {
    Ticket(
      p.id.GetOr(t.id), p.name.GetOr(t.name), p.surname.GetOr(t.surname),
      p.company.GetOr(t.company), p.email.GetOr(t.email),
      p.description.GetOr(t.description), p.priority.GetOr(t.priority),
      p.createdAt.GetOr(t.createdAt))
  }

  /** `ExportFormat` */
  datatype Format = Csv | Json

  function FormatName(f: Format): string {
    match f
    case Csv => "csv"
    case Json => "json"
  }

  /** `ImportOptions.handleDuplicates` */
  datatype DuplicatePolicy = SkipDuplicates | OverwriteDuplicates | MergeDuplicates

  /** `ImportOptions` */
  datatype ImportOptions = ImportOptions(format: Format, handleDuplicates: DuplicatePolicy, validateOnly: Option<bool>)

  /** `ExportOptions`. The format is kept as a string: an unknown one is an error path. */
  datatype ExportOptions = ExportOptions(format: string, includeMetadata: Option<bool>, filename: Option<string>)

  /** `ImportError`; `value` is the offending raw field, absent when the field was undefined. */
  datatype ImportError = ImportError(row: Option<nat>, field: Option<string>, message: string, value: Option<string>)

  /** `ImportPreview` */
  datatype ImportPreview = ImportPreview(
    tickets: seq<Ticket>,
    errors: seq<ImportError>,
    totalRows: nat,
    validRows: nat,
    invalidRows: nat)

  /** `JsonExportData.metadata` */
  datatype Metadata = Metadata(totalTickets: nat, priorityDistribution: map<string, nat>)

  /** `JsonExportData` */
  datatype JsonExportData = JsonExportData(
    tickets: seq<Ticket>,
    exportDate: string,
    version: string,
    metadata: Option<Metadata>)

  /** The `t => t.id === id` predicate of the find, map and update callbacks. */
  function HasId(id: string): Ticket -> bool {
    (t: Ticket) => t.id == id
  }

  /** The `t => t.id !== id` predicate of the delete filters. */
  function LacksId(id: string): Ticket -> bool {
    (t: Ticket) => t.id != id
  }
}
