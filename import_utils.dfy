/**
 * The import pipeline: field predicates and normalisers, the CSV and JSON row
 * processors that build an `ImportPreview`, the format dispatch and format detection.
 * The CSV tokenizer and `JSON.parse` are outside the model: the processors start from
 * already-parsed records, and a parser's failure arrives as its message.
 */
module ImportUtils {
  import opened Wrappers
  import opened Text
  import opened Seqs
  import opened Constants
  import opened Types

  /** A parsed record: field name to string value; an absent key is an undefined or null field. */
  type Row = map<string, string>

  /** A parsed JSON document, as far as `processJSONData` looks at it. */
  datatype JsonDocument =
    | NullDocument                        // the literal `null`: reading `.tickets` throws
    | TicketsDocument(records: seq<Row>)  // an object whose `tickets` is an array
    | OtherDocument                       // any other value: `tickets` missing or not an array

  /** What reading and `JSON.parse` made of the file. */
  datatype JsonSource = ReadFailed | Malformed(message: string) | Parsed(document: JsonDocument)

  /** The clock, read as `Date.now()` and `new Date().toISOString()`. */
  datatype Clock = Clock(nowMs: nat, nowIso: string)

  /** `new Date(s).toISOString()`: the ISO text, or the message of the RangeError it throws. */
  type DateToIso = string -> Result<string, string>

  const RequiredFields: seq<string> := ["name", "surname", "company", "email", "description", "priority"]

  const NullDocumentMessage := "Cannot read properties of null (reading 'tickets')"
  const InvalidJsonShapeMessage := "Invalid JSON format: Expected object with \"tickets\" array"
  const UndetectedFormatMessage := "Unable to detect file format. Please use .csv or .json files."

  function Field(row: Row, f: string): Option<string> {
    if f in row then Some(row[f]) else None
  }

  /** JavaScript truthiness of an optional string. */
  predicate Truthy(v: Option<string>) {
    v.Some? && v.value != ""
  }

  /** `!row[f] || row[f].trim() === ''` (`Blank` is the trim test, by `BlankIffTrimEmpty`). */
  predicate IsBlank(row: Row, f: string) {
    !Truthy(Field(row, f)) || Blank(row[f])
  }

  /** Index of the first `c` in `s`, or `|s|`. */
  function IndexOfChar(s: string, c: char): (i: nat)
    ensures i <= |s| && (i < |s| ==> s[i] == c)
    ensures forall k :: 0 <= k < i ==> s[k] != c
  {
    if s == [] then 0 else if s[0] == c then 0 else 1 + IndexOfChar(s[1..], c)
  }

  /** `validateEmail`: `EMAIL_REGEX.test(email)`. */
  function ValidateEmail(email: string): (b: bool)
    ensures b <==> MatchesEmailRegex(email)
  {
    var at := IndexOfChar(email, '@');
    var b :=
      && 0 < at && at + 2 <= |email| - 1
      && (forall k | 0 <= k < |email| && k != at :: EmailChar(email[k]))
      && '.' in email[at + 2..|email| - 1];
    assert b ==> MatchesEmailRegex(email) by {
      if b {
        var j :| 0 <= j < |email[at + 2..|email| - 1]| && email[at + 2..|email| - 1][j] == '.';
        assert EmailSplit(email, at, at + 2 + j);
      }
    }
    assert MatchesEmailRegex(email) ==> b by {
      if MatchesEmailRegex(email) {
        var a, d :| EmailSplit(email, a, d);
        assert email[a] == '@';
        assert forall k :: 0 <= k < |email| && k != a ==> email[k] != '@';
        assert at == a;
        assert email[at + 2..|email| - 1][d - (at + 2)] == '.';
      }
    }
    b
  }

  /**
   * `validatePriority`: case-insensitive membership in `PRIORITY_LEVELS`, without trimming, so a
   * priority that passes neither starts nor ends with whitespace.
   */
  predicate ValidatePriority(priority: string)
    ensures ValidatePriority(priority) ==>
      priority != [] && !IsWhitespace(priority[0]) && !IsWhitespace(priority[|priority| - 1])
  {
    var lower := ToLower(priority);
    if lower in PriorityLevels then
      LevelHasNoOuterWhitespace(lower);
      LowerCharWhitespace(priority[0]);
      LowerCharWhitespace(priority[|priority| - 1]);
      true
    else
      false
  }

  /** A priority that validates is already trimmed, and normalising it only lower-cases it. */
  lemma ValidPriorityNormalizes(priority: string)
    requires ValidatePriority(priority)
    ensures Trim(priority) == priority
    ensures NormalizePriority(priority) == ToLower(priority)
  {
    var lower := ToLower(priority);
    LevelHasNoOuterWhitespace(lower);
    TrimNoop(lower);
    var first, last := priority[0], priority[|priority| - 1];
    assert lower[0] == LowerChar(first) && lower[|lower| - 1] == LowerChar(last);
    LowerCharWhitespace(first);
    LowerCharWhitespace(last);
    TrimNoop(priority);
  }

  lemma LevelHasNoOuterWhitespace(level: string)
    requires level in PriorityLevels
    ensures level != [] && !IsWhitespace(level[0]) && !IsWhitespace(level[|level| - 1])
  {
    if level == "high" {
    } else if level == "medium" {
    } else {
      assert level == "low";
    }
  }

  /** `normalizePriority`: the lower-cased, trimmed value when it is a level, else "medium". */
  function NormalizePriority(priority: string): (r: string)
    ensures r in PriorityLevels
    ensures Trim(ToLower(priority)) in PriorityLevels ==> r == Trim(ToLower(priority))
    ensures Trim(ToLower(priority)) !in PriorityLevels ==> r == "medium"
  {
    var normalized := Trim(ToLower(priority));
    if normalized in ["high", "medium", "low"] then normalized else "medium"
  }

  /** A level padded with leading whitespace fails validation, yet normalises to the level. */
  lemma PaddedPriorityRejectedButNormalized(level: string, pad: char)
    requires level in PriorityLevels && IsWhitespace(pad)
    ensures !ValidatePriority([pad] + level)
    ensures NormalizePriority([pad] + level) == level
  {
    PaddedPriorityRejected(level, pad);
    PaddedPriorityTrims(level, pad);
  }

  lemma PaddedPriorityRejected(level: string, pad: char)
    requires level in PriorityLevels && IsWhitespace(pad)
    ensures ToLower([pad] + level) == [pad] + level
    ensures [pad] + level !in PriorityLevels
  {
    var padded := [pad] + level;
    LevelLetters(level);
    WhitespaceIsNotLetter(pad);
    assert forall k :: 1 <= k < |padded| ==> padded[k] == level[k - 1];
    ToLowerKeepsNonUpper(padded);
    LevelsStartWithLetter();
    assert padded[0] == pad;
  }

  lemma PaddedPriorityTrims(level: string, pad: char)
    requires level in PriorityLevels && IsWhitespace(pad)
    ensures Trim([pad] + level) == level
  {
    var padded := [pad] + level;
    LevelHasNoOuterWhitespace(level);
    assert padded[1..] == level;
    assert TrimStart(padded) == level;
    TrimNoop(level);
  }

  /** Every level is a non-empty word of lower-case ASCII letters. */
  lemma LevelLetters(level: string)
    requires level in PriorityLevels
    ensures level != [] && forall k :: 0 <= k < |level| ==> 'a' <= level[k] <= 'z'
  {
    if level == "high" {
    } else if level == "medium" {
    } else {
      assert level == "low";
    }
  }

  lemma LevelsStartWithLetter()
    ensures forall l :: l in PriorityLevels ==> l != [] && 'a' <= l[0] <= 'z'
  {
    forall l | l in PriorityLevels
      ensures l != [] && 'a' <= l[0] <= 'z'
    {
      LevelLetters(l);
    }
  }

  lemma LevelIsLowerCase(level: string)
    requires level in PriorityLevels
    ensures ToLower(level) == level
  {
    LevelLetters(level);
    ToLowerKeepsNonUpper(level);
  }

  function FieldError(rowNum: nat, row: Row, f: string, message: string): ImportError {
    ImportError(Some(rowNum), Some(f), message, Field(row, f))
  }

  /** A field the row checks accept: filled in and, for email and priority, well-formed. */
  predicate FieldAccepted(row: Row, f: string) {
    && !IsBlank(row, f)
    && (f == "email" ==> ValidateEmail(row[f]))
    && (f == "priority" ==> ValidatePriority(row[f]))
  }

  /** Every field of `fields` accepted. */
  predicate AllAccepted(row: Row, fields: seq<string>)
    decreases |fields|
  {
    fields == [] || (FieldAccepted(row, fields[0]) && AllAccepted(row, fields[1..]))
  }

  /** Every field of `fields` filled in. */
  predicate AllFilled(row: Row, fields: seq<string>)
    decreases |fields|
  {
    fields == [] || (!IsBlank(row, fields[0]) && AllFilled(row, fields[1..]))
  }

  /** A record that both processors accept. */
  predicate RowIsValid(row: Row) {
    AllAccepted(row, RequiredFields)
  }

  lemma {:induction false} AcceptedAt(row: Row, fields: seq<string>, k: nat)
    requires AllAccepted(row, fields) && k < |fields|
    ensures FieldAccepted(row, fields[k])
  {
    if k > 0 {
      AcceptedAt(row, fields[1..], k - 1);
    }
  }

  lemma {:induction false} FilledAt(row: Row, fields: seq<string>, k: nat)
    requires AllFilled(row, fields) && k < |fields|
    ensures !IsBlank(row, fields[k])
  {
    if k > 0 {
      FilledAt(row, fields[1..], k - 1);
    }
  }

  /** Acceptance is "filled in" plus the email and priority formats, when those fields are checked. */
  lemma {:induction false} AcceptedIffFilledAndFormatted(row: Row, fields: seq<string>)
    ensures AllAccepted(row, fields) <==>
      && AllFilled(row, fields)
      && ("email" in fields ==> ValidateEmail(FieldText(row, "email")))
      && ("priority" in fields ==> ValidatePriority(FieldText(row, "priority")))
    decreases |fields|
  {
    if fields != [] {
      AcceptedIffFilledAndFormatted(row, fields[1..]);
      assert forall f :: f in fields <==> f == fields[0] || f in fields[1..];
    }
  }

  predicate Distinct(fields: seq<string>) {
    forall i, j :: 0 <= i < j < |fields| ==> fields[i] != fields[j]
  }

  /** The CSV check of one field: "required" when blank, else a format error for email and priority. */
  function CsvFieldErrors(row: Row, rowNum: nat, f: string): (errs: seq<ImportError>)
    ensures |errs| <= 1
    ensures forall e :: e in errs ==> e.row == Some(rowNum) && e.field == Some(f)
    ensures errs == [] <==> FieldAccepted(row, f)
  {
    if IsBlank(row, f) then [FieldError(rowNum, row, f, Capitalize(f) + " is required")]
    else if f == "email" && !ValidateEmail(row[f]) then [FieldError(rowNum, row, f, "Invalid email format")]
    else if f == "priority" && !ValidatePriority(row[f]) then [FieldError(rowNum, row, f, "Priority must be high, medium, or low")]
    else []
  }

  /** The CSV checks of `fields`, in order. */
  function CsvErrorsFor(row: Row, rowNum: nat, fields: seq<string>): (errs: seq<ImportError>)
    requires Distinct(fields)
    ensures |errs| <= |fields|
    ensures forall e :: e in errs ==> e.row == Some(rowNum) && e.field.Some? && e.field.value in fields
    ensures forall i, j :: 0 <= i < j < |errs| ==> errs[i].field != errs[j].field
    ensures errs == [] <==> AllAccepted(row, fields)
  {
    if fields == [] then []
    else
      var first := CsvFieldErrors(row, rowNum, fields[0]);
      var rest := CsvErrorsFor(row, rowNum, fields[1..]);
      assert forall e :: e in rest ==> e.field != Some(fields[0]);
      first + rest
  }

  /** The errors `processCSVData` collects for one row: at most one per field. */
  function CsvRowErrors(row: Row, rowNum: nat): (errs: seq<ImportError>)
    ensures |errs| <= 6
    ensures forall e :: e in errs ==> e.row == Some(rowNum) && e.field.Some? && e.field.value in RequiredFields
    ensures forall i, j :: 0 <= i < j < |errs| ==> errs[i].field != errs[j].field
    ensures errs == [] <==> RowIsValid(row)
  {
    CsvErrorsFor(row, rowNum, RequiredFields)
  }

  function OfField(f: string): ImportError -> bool {
    (e: ImportError) => e.field == Some(f)
  }

  /** The errors a CSV row reports for field `f` are exactly that field's own check. */
  lemma {:induction false} CsvErrorsOfField(row: Row, rowNum: nat, fields: seq<string>, f: string)
    requires Distinct(fields) && f in fields
    ensures Filter(CsvErrorsFor(row, rowNum, fields), OfField(f)) == CsvFieldErrors(row, rowNum, f)
  {
    var first := CsvFieldErrors(row, rowNum, fields[0]);
    var rest := CsvErrorsFor(row, rowNum, fields[1..]);
    FilterConcat(first, rest, OfField(f));
    if fields[0] == f {
      FilterKeepsAll(first, OfField(f));
      assert forall e :: e in rest ==> e.field != Some(f);
      FilterDropsAll(rest, OfField(f));
    } else {
      FilterDropsAll(first, OfField(f));
      assert f in fields[1..];
      CsvErrorsOfField(row, rowNum, fields[1..], f);
    }
  }

  /** An invalid, non-blank email gives a CSV row exactly one email error, the format error. */
  lemma CsvInvalidEmailSingleError(row: Row, rowNum: nat)
    requires !IsBlank(row, "email") && !ValidateEmail(row["email"])
    ensures Filter(CsvRowErrors(row, rowNum), OfField("email")) == [FieldError(rowNum, row, "email", "Invalid email format")]
  {
    assert RequiredFields[3] == "email";
    CsvErrorsOfField(row, rowNum, RequiredFields, "email");
  }

  /** The "required" errors of `processJSONData`, one per blank field in `fields`, in order. */
  function JsonRequiredErrors(row: Row, rowNum: nat, fields: seq<string>): (errs: seq<ImportError>)
    ensures |errs| <= |fields|
    ensures forall e :: e in errs ==> e.row == Some(rowNum)
    ensures errs == [] <==> AllFilled(row, fields)
    ensures forall k :: 0 <= k < |fields| && IsBlank(row, fields[k]) ==>
      FieldError(rowNum, row, fields[k], Capitalize(fields[k]) + " is required") in errs
  {
    if fields == [] then []
    else
      var first := if IsBlank(row, fields[0])
        then [FieldError(rowNum, row, fields[0], Capitalize(fields[0]) + " is required")]
        else [];
      var rest := JsonRequiredErrors(row, rowNum, fields[1..]);
      assert forall k :: 1 <= k < |fields| ==> fields[k] == fields[1..][k - 1];
      first + rest
  }

  /** The format errors `processJSONData` adds for a present email or priority, blank or not. */
  function JsonFormatErrors(row: Row, rowNum: nat): (errs: seq<ImportError>)
    ensures |errs| <= 2
    ensures forall e :: e in errs ==> e.row == Some(rowNum)
    ensures errs == [] <==>
      && (Truthy(Field(row, "email")) ==> ValidateEmail(row["email"]))
      && (Truthy(Field(row, "priority")) ==> ValidatePriority(row["priority"]))
  {
    var email :=
      if Truthy(Field(row, "email")) && !ValidateEmail(row["email"])
      then [FieldError(rowNum, row, "email", "Invalid email format")] else [];
    var priority :=
      if Truthy(Field(row, "priority")) && !ValidatePriority(row["priority"])
      then [FieldError(rowNum, row, "priority", "Priority must be high, medium, or low")] else [];
    email + priority
  }

  /** The errors `processJSONData` collects for one record: a field may be reported twice. */
  function JsonRowErrors(row: Row, rowNum: nat): (errs: seq<ImportError>)
    ensures |errs| <= 8
    ensures forall e :: e in errs ==> e.row == Some(rowNum)
    ensures errs == [] <==> RowIsValid(row)
  {
    var required := JsonRequiredErrors(row, rowNum, RequiredFields);
    var format := JsonFormatErrors(row, rowNum);
    AcceptedIffFilledAndFormatted(row, RequiredFields);
    assert RequiredFields[3] == "email" && RequiredFields[5] == "priority";
    assert AllFilled(row, RequiredFields) ==> !IsBlank(row, "email") && !IsBlank(row, "priority") by {
      if AllFilled(row, RequiredFields) {
        FilledAt(row, RequiredFields, 3);
        FilledAt(row, RequiredFields, 5);
      }
    }
    required + format
  }

  /** An address that starts with whitespace never matches the pattern. */
  lemma LeadingSpaceEmailInvalid(email: string)
    requires email != [] && IsWhitespace(email[0])
    ensures !ValidateEmail(email)
  {
    assert !EmailChar(email[0]);
    assert forall a, d :: !EmailSplit(email, a, d);
  }

  lemma EmailRequiredMessage()
    ensures Capitalize("email") + " is required" == "Email is required"
  {
    assert UpperChar('e') == 'E';
    assert "email"[1..] == "mail";
  }

  /** A whitespace-only email gives a JSON record two errors for the same field. */
  lemma JsonBlankEmailTwoErrors(row: Row, rowNum: nat)
    requires "email" in row && row["email"] != "" && Trim(row["email"]) == ""
    ensures FieldError(rowNum, row, "email", "Email is required") in JsonRowErrors(row, rowNum)
    ensures FieldError(rowNum, row, "email", "Invalid email format") in JsonRowErrors(row, rowNum)
  {
    BlankEmailRequired(row, rowNum);
    BlankEmailMalformed(row, rowNum);
    JsonRowErrorsParts(row, rowNum);
  }

  lemma BlankEmailRequired(row: Row, rowNum: nat)
    requires "email" in row && Trim(row["email"]) == ""
    ensures FieldError(rowNum, row, "email", "Email is required") in JsonRequiredErrors(row, rowNum, RequiredFields)
  {
    EmailRequiredMessage();
    assert RequiredFields[3] == "email";
    BlankFieldRequired(row, rowNum, RequiredFields, 3, "Email is required");
  }

  /** A field whose trimmed value is empty gets its required error, for a field list the solver need not unfold. */
  lemma BlankFieldRequired(row: Row, rowNum: nat, fields: seq<string>, k: nat, message: string)
    requires k < |fields| && fields[k] in row && Trim(row[fields[k]]) == ""
    requires Capitalize(fields[k]) + " is required" == message
    ensures FieldError(rowNum, row, fields[k], message) in JsonRequiredErrors(row, rowNum, fields)
  {
    BlankIffTrimEmpty(row[fields[k]]);
    assert IsBlank(row, fields[k]);
  }

  lemma BlankEmailMalformed(row: Row, rowNum: nat)
    requires "email" in row && row["email"] != "" && Trim(row["email"]) == ""
    ensures FieldError(rowNum, row, "email", "Invalid email format") in JsonFormatErrors(row, rowNum)
  {
    var email := row["email"];
    BlankIffTrimEmpty(email);
    LeadingSpaceEmailInvalid(email);
    assert JsonFormatErrors(row, rowNum)[0] == FieldError(rowNum, row, "email", "Invalid email format");
  }

  lemma JsonRowErrorsParts(row: Row, rowNum: nat)
    ensures forall e :: e in JsonRequiredErrors(row, rowNum, RequiredFields) ==> e in JsonRowErrors(row, rowNum)
    ensures forall e :: e in JsonFormatErrors(row, rowNum) ==> e in JsonRowErrors(row, rowNum)
  {
    assert JsonRowErrors(row, rowNum) == JsonRequiredErrors(row, rowNum, RequiredFields) + JsonFormatErrors(row, rowNum);
  }

  /** The id the processors invent for a record without one: `imported-<now>-<index>`. */
  function GeneratedId(nowMs: nat, index: nat): string {
    "imported-" + NatToString(nowMs) + "-" + NatToString(index)
  }

  /** Records of one batch never share a generated id. */
  lemma GeneratedIdsDistinct(nowMs: nat, i: nat, j: nat)
    requires i != j
    ensures GeneratedId(nowMs, i) != GeneratedId(nowMs, j)
  {
    var prefix := "imported-" + NatToString(nowMs) + "-";
    if GeneratedId(nowMs, i) == GeneratedId(nowMs, j) {
      assert GeneratedId(nowMs, i)[|prefix|..] == NatToString(i);
      assert GeneratedId(nowMs, j)[|prefix|..] == NatToString(j);
      NatToStringInjective(i, j);
    }
  }

  function FieldText(row: Row, f: string): string {
    Field(row, f).GetOr("")
  }

  /** The id an accepted record gets: `row.id`, or a generated one when that is missing or empty. */
  function TicketId(row: Row, index: nat, clock: Clock): string {
    if Truthy(Field(row, "id")) then row["id"] else GeneratedId(clock.nowMs, index)
  }

  /** The creation time an accepted record gets: its own `createdAt` re-rendered, or now. */
  function CreatedAt(row: Row, clock: Clock, toIso: DateToIso): Result<string, string> {
    if Truthy(Field(row, "createdAt")) then toIso(row["createdAt"]) else Success(clock.nowIso)
  }

  /** `{ id, name: row.name.trim(), ..., priority: normalizePriority(row.priority), createdAt }` */
  function TicketOf(row: Row, id: string, createdAt: string): (t: Ticket)
    ensures t.id == id && t.createdAt == createdAt && t.priority in PriorityLevels
  {
    Ticket(
      id, Trim(FieldText(row, "name")), Trim(FieldText(row, "surname")),
      Trim(FieldText(row, "company")), Trim(FieldText(row, "email")),
      Trim(FieldText(row, "description")), NormalizePriority(FieldText(row, "priority")), createdAt)
  }

  /** The ticket built from an accepted record at position `index`. */
  function BuildTicket(row: Row, index: nat, clock: Clock, toIso: DateToIso): (r: Result<Ticket, string>)
    ensures r.Failure? <==> CreatedAt(row, clock, toIso).Failure?
    ensures r.Success? ==> r.value.id == TicketId(row, index, clock)
    ensures r.Success? ==> r.value.createdAt == CreatedAt(row, clock, toIso).value
    ensures r.Success? ==> r.value.priority in PriorityLevels
  {
    match CreatedAt(row, clock, toIso)
    case Failure(e) => Failure(e)
    case Success(at) => Success(TicketOf(row, TicketId(row, index, clock), at))
  }

  /** No whitespace at either end. */
  predicate Trimmed(s: string) {
    s == [] || (!IsWhitespace(s[0]) && !IsWhitespace(s[|s| - 1]))
  }

  /** A filled-in field trims to a non-empty value with no whitespace at its ends. */
  lemma FilledFieldTrims(row: Row, f: string)
    requires !IsBlank(row, f)
    ensures Trim(FieldText(row, f)) == Trim(row[f]) != ""
    ensures Trimmed(Trim(FieldText(row, f)))
  {
    BlankIffTrimEmpty(row[f]);
  }

  /**
   * A ticket built from an accepted record has every text field filled in and, as its
   * priority, the lower-cased form of the record's; `FilledFieldTrims` says the text
   * fields carry no whitespace at their ends.
   */
  lemma ImportedTicketFields(row: Row, id: string, createdAt: string)
    requires RowIsValid(row)
    ensures var t := TicketOf(row, id, createdAt);
      && t.name != "" && t.surname != "" && t.company != "" && t.email != "" && t.description != ""
      && t.priority == ToLower(FieldText(row, "priority"))
  {
    AcceptedAt(row, RequiredFields, 0);
    AcceptedAt(row, RequiredFields, 1);
    AcceptedAt(row, RequiredFields, 2);
    AcceptedAt(row, RequiredFields, 3);
    AcceptedAt(row, RequiredFields, 4);
    AcceptedAt(row, RequiredFields, 5);
    assert RequiredFields[0] == "name" && RequiredFields[1] == "surname" && RequiredFields[2] == "company";
    assert RequiredFields[3] == "email" && RequiredFields[4] == "description" && RequiredFields[5] == "priority";
    ValidPriorityNormalizes(row["priority"]);
    FilledFieldTrims(row, "name");
    FilledFieldTrims(row, "surname");
    FilledFieldTrims(row, "company");
    FilledFieldTrims(row, "email");
    FilledFieldTrims(row, "description");
  }

  /** The row number an error carries: after the header line for CSV, counted from one for JSON. */
  function RowNumber(format: Format, index: nat): (n: nat)
    ensures n == index + FirstRowNumber(format)
  {
    index + FirstRowNumber(format)
  }

  /** The number of the first record: 2 for CSV, after the header line, and 1 for JSON. */
  function FirstRowNumber(format: Format): nat {
    match format
    case Csv => 2
    case Json => 1
  }

  function RowErrors(format: Format, row: Row, index: nat): (errs: seq<ImportError>)
    ensures errs == [] <==> RowIsValid(row)
    ensures forall e :: e in errs ==> e.row == Some(RowNumber(format, index))
  {
    match format
    case Csv => CsvRowErrors(row, RowNumber(format, index))
    case Json => JsonRowErrors(row, RowNumber(format, index))
  }

  datatype RowsOutcome = RowsOutcome(tickets: seq<Ticket>, errors: seq<ImportError>)

  /** The per-record work of a processor: the errors it reports, and the ticket it then builds. */
  datatype RowHandlers = RowHandlers(
    check: (Row, nat) -> seq<ImportError>,
    build: (Row, nat) -> Result<Ticket, string>)

  /**
   * The records taken in order: an accepted one adds its ticket, a rejected one all its
   * errors; the first accepted record whose ticket cannot be built aborts the whole pass.
   */
  function Fold(rows: seq<Row>, h: RowHandlers): (r: Result<RowsOutcome, string>)
    ensures r.Success? ==> |r.value.tickets| <= |rows|
    decreases |rows|
  {
    if rows == [] then Success(RowsOutcome([], []))
    else
      var i := |rows| - 1;
      match Fold(rows[..i], h)
      case Failure(e) => Failure(e)
      case Success(acc) =>
        var errs := h.check(rows[i], i);
        if errs == [] then
          match h.build(rows[i], i)
          case Failure(e) => Failure(e)
          case Success(t) => Success(RowsOutcome(acc.tickets + [t], acc.errors))
        else
          Success(RowsOutcome(acc.tickets, acc.errors + errs))
  }

  /** The positions of the records `h` accepts, in increasing order. */
  function Accepted(rows: seq<Row>, h: RowHandlers): (ix: seq<nat>)
    ensures forall k :: 0 <= k < |ix| ==> ix[k] < |rows| && h.check(rows[ix[k]], ix[k]) == []
    ensures forall i :: 0 <= i < |rows| && h.check(rows[i], i) == [] ==> i in ix
    ensures forall k, l :: 0 <= k < l < |ix| ==> ix[k] < ix[l]
    decreases |rows|
  {
    if rows == [] then []
    else
      var i := |rows| - 1;
      var prefix := Accepted(rows[..i], h);
      assert forall j :: 0 <= j < i ==> rows[..i][j] == rows[j];
      if h.check(rows[i], i) == [] then prefix + [i] else prefix
  }

  /** The k-th ticket of a pass is the one built from the k-th accepted record. */
  lemma {:induction false} FoldTickets(rows: seq<Row>, h: RowHandlers)
    requires Fold(rows, h).Success?
    ensures var out := Fold(rows, h).value;
      var ix := Accepted(rows, h);
      && |out.tickets| == |ix|
      && forall k :: 0 <= k < |ix| ==> h.build(rows[ix[k]], ix[k]) == Success(out.tickets[k])
    decreases |rows|
  {
    if rows != [] {
      var i := |rows| - 1;
      var prefix := rows[..i];
      assert Fold(prefix, h).Success?;
      FoldTickets(prefix, h);
      TicketsStep(rows, h, Accepted(prefix, h), Fold(prefix, h).value.tickets,
        Accepted(rows, h), Fold(rows, h).value.tickets, h.check(rows[i], i) == [], h.build(rows[i], i));
    }
  }

  /** The correspondence between accepted positions and tickets survives one more record. */
  lemma TicketsStep(rows: seq<Row>, h: RowHandlers, ix0: seq<nat>, tickets0: seq<Ticket>,
                    ix: seq<nat>, tickets: seq<Ticket>, add: bool, built: Result<Ticket, string>)
    requires rows != []
    requires |tickets0| == |ix0|
    requires forall k :: 0 <= k < |ix0| ==>
      ix0[k] < |rows| - 1 && h.build(rows[..|rows| - 1][ix0[k]], ix0[k]) == Success(tickets0[k])
    requires built == h.build(rows[|rows| - 1], |rows| - 1)
    requires add ==> built.Success?
    requires ix == if add then ix0 + [|rows| - 1] else ix0
    requires tickets == if add then tickets0 + [built.value] else tickets0
    ensures |tickets| == |ix|
    ensures forall k :: 0 <= k < |ix| ==> h.build(rows[ix[k]], ix[k]) == Success(tickets[k])
  {
    assert forall k :: 0 <= k < |ix0| ==> rows[..|rows| - 1][ix0[k]] == rows[ix0[k]];
  }

  /** Every record's own errors, concatenated in record order. */
  function AllErrors(rows: seq<Row>, h: RowHandlers): seq<ImportError>
    decreases |rows|
  {
    if rows == [] then []
    else AllErrors(rows[..|rows| - 1], h) + h.check(rows[|rows| - 1], |rows| - 1)
  }

  /** The errors of a pass are the records' own errors, in record order. */
  lemma {:induction false} FoldErrors(rows: seq<Row>, h: RowHandlers)
    requires Fold(rows, h).Success?
    ensures Fold(rows, h).value.errors == AllErrors(rows, h)
    decreases |rows|
  {
    if rows != [] {
      FoldErrors(rows[..|rows| - 1], h);
    }
  }

  /** When each record's errors carry its number, `offset` past its index, so do all of them. */
  lemma {:induction false} AllErrorsNumbered(rows: seq<Row>, h: RowHandlers, offset: nat)
    requires forall row: Row, i: nat, e :: e in h.check(row, i) ==> e.row == Some(i + offset)
    ensures forall e :: e in AllErrors(rows, h) ==> e.row.Some? && offset <= e.row.value < |rows| + offset
    decreases |rows|
  {
    if rows != [] {
      AllErrorsNumbered(rows[..|rows| - 1], h, offset);
    }
  }

  /** The errors of a pass carry the numbers of records of its input. */
  lemma FoldErrorsNumbered(rows: seq<Row>, h: RowHandlers, offset: nat)
    requires Fold(rows, h).Success?
    requires forall row: Row, i: nat, e :: e in h.check(row, i) ==> e.row == Some(i + offset)
    ensures forall e :: e in Fold(rows, h).value.errors ==> e.row.Some? && offset <= e.row.value < |rows| + offset
  {
    FoldErrors(rows, h);
    AllErrorsNumbered(rows, h, offset);
  }

  /** A pass throws exactly when some accepted record's ticket cannot be built. */
  lemma {:induction false} FoldFails(rows: seq<Row>, h: RowHandlers)
    ensures Fold(rows, h).Failure? <==>
      exists i :: 0 <= i < |rows| && h.check(rows[i], i) == [] && h.build(rows[i], i).Failure?
    decreases |rows|
  {
    if rows != [] {
      var i := |rows| - 1;
      FoldFails(rows[..i], h);
      assert forall j :: 0 <= j < i ==> rows[..i][j] == rows[j];
    }
  }

  /** Once a prefix has thrown, the whole pass throws the same error. */
  lemma {:induction false} PrefixFailurePersists(rows: seq<Row>, n: nat, h: RowHandlers)
    requires n <= |rows| && Fold(rows[..n], h).Failure?
    ensures Fold(rows, h) == Fold(rows[..n], h)
    decreases |rows| - n
  {
    if n < |rows| {
      var i := |rows| - 1;
      assert rows[..i][..n] == rows[..n];
      PrefixFailurePersists(rows[..i], n, h);
    } else {
      assert rows[..n] == rows;
    }
  }

  /** The handlers of the CSV or the JSON processor. */
  function Handlers(format: Format, clock: Clock, toIso: DateToIso): RowHandlers {
    RowHandlers(
      (row: Row, i: nat) => RowErrors(format, row, i),
      (row: Row, i: nat) => BuildTicket(row, i, clock, toIso))
  }

  /** One pass of a processor over its records. */
  function ProcessRows(format: Format, rows: seq<Row>, clock: Clock, toIso: DateToIso): Result<RowsOutcome, string> {
    Fold(rows, Handlers(format, clock, toIso))
  }

  /** Every error a pass reports carries the number of a record of the input. */
  lemma ProcessRowsErrorRows(format: Format, rows: seq<Row>, clock: Clock, toIso: DateToIso)
    requires ProcessRows(format, rows, clock, toIso).Success?
    ensures forall e :: e in ProcessRows(format, rows, clock, toIso).value.errors ==>
      e.row.Some? && RowNumber(format, 0) <= e.row.value < RowNumber(format, |rows|)
  {
    var h := Handlers(format, clock, toIso);
    HandlersNumberRows(format, clock, toIso);
    FoldErrorsNumbered(rows, h, FirstRowNumber(format));
  }

  lemma HandlersNumberRows(format: Format, clock: Clock, toIso: DateToIso)
    ensures forall row: Row, i: nat, e ::
      e in Handlers(format, clock, toIso).check(row, i) ==> e.row == Some(i + FirstRowNumber(format))
  {
    forall row: Row, i: nat
      ensures forall e :: e in Handlers(format, clock, toIso).check(row, i) ==> e.row == Some(i + FirstRowNumber(format))
    {
      HandlersCheck(format, clock, toIso, row, i);
      RowErrorsNumbered(format, row, i);
    }
  }

  lemma RowErrorsNumbered(format: Format, row: Row, i: nat)
    ensures forall e :: e in RowErrors(format, row, i) ==> e.row == Some(i + FirstRowNumber(format))
  {
    var errs := RowErrors(format, row, i);
    var n := RowNumber(format, i);
    assert n == i + FirstRowNumber(format);
    assert forall e :: e in errs ==> e.row == Some(n);
  }

  lemma HandlersCheck(format: Format, clock: Clock, toIso: DateToIso, row: Row, i: nat)
    ensures Handlers(format, clock, toIso).check(row, i) == RowErrors(format, row, i)
  {
  }

  /** The positions of the records both processors accept. */
  lemma AcceptedAreValidRows(format: Format, rows: seq<Row>, clock: Clock, toIso: DateToIso)
    ensures var ix := Accepted(rows, Handlers(format, clock, toIso));
      && (forall k :: 0 <= k < |ix| ==> ix[k] < |rows| && RowIsValid(rows[ix[k]]))
      && (forall i :: 0 <= i < |rows| && RowIsValid(rows[i]) ==> i in ix)
  {
  }

  /** What an imported ticket keeps of the accepted record it was built from. */
  predicate ImportedFrom(t: Ticket, row: Row, index: nat, clock: Clock) {
    && RowIsValid(row)
    && t.id == TicketId(row, index, clock)
    && t.name == Trim(FieldText(row, "name")) && t.surname == Trim(FieldText(row, "surname"))
    && t.company == Trim(FieldText(row, "company")) && t.email == Trim(FieldText(row, "email"))
    && t.description == Trim(FieldText(row, "description"))
    && t.name != "" && t.surname != "" && t.company != "" && t.email != "" && t.description != ""
    && t.priority == ToLower(FieldText(row, "priority")) && t.priority in PriorityLevels
  }

  lemma BuiltTicketImported(row: Row, index: nat, clock: Clock, toIso: DateToIso, t: Ticket)
    requires RowIsValid(row) && BuildTicket(row, index, clock, toIso) == Success(t)
    ensures ImportedFrom(t, row, index, clock)
  {
    ImportedTicketFields(row, TicketId(row, index, clock), CreatedAt(row, clock, toIso).value);
  }

  /**
   * A pass that does not throw imports one ticket per valid record, in record order,
   * each with the record's id (or a generated one), trimmed non-empty text and a lower-case level.
   */
  lemma ImportedTickets(format: Format, rows: seq<Row>, clock: Clock, toIso: DateToIso)
    requires ProcessRows(format, rows, clock, toIso).Success?
    ensures var tickets := ProcessRows(format, rows, clock, toIso).value.tickets;
      var ix := Accepted(rows, Handlers(format, clock, toIso));
      && |tickets| == |ix|
      && (forall k :: 0 <= k < |ix| ==> ix[k] < |rows| && ImportedFrom(tickets[k], rows[ix[k]], ix[k], clock))
      && (forall i :: 0 <= i < |rows| && RowIsValid(rows[i]) ==> i in ix)
  {
    var h := Handlers(format, clock, toIso);
    var tickets := Fold(rows, h).value.tickets;
    var ix := Accepted(rows, h);
    FoldTickets(rows, h);
    AcceptedAreValidRows(format, rows, clock, toIso);
    forall k | 0 <= k < |ix|
      ensures ImportedFrom(tickets[k], rows[ix[k]], ix[k], clock)
    {
      assert h.build(rows[ix[k]], ix[k]) == Success(tickets[k]);
      BuiltTicketImported(rows[ix[k]], ix[k], clock, toIso, tickets[k]);
    }
  }

  /** An accepted row whose `createdAt` does not parse. */
  predicate DateFails(row: Row, toIso: DateToIso) {
    RowIsValid(row) && Truthy(Field(row, "createdAt")) && toIso(row["createdAt"]).Failure?
  }

  /** A pass throws exactly when some accepted row carries an unparseable `createdAt`. */
  lemma ProcessRowsFailsOnBadDate(format: Format, rows: seq<Row>, clock: Clock, toIso: DateToIso)
    ensures ProcessRows(format, rows, clock, toIso).Failure? <==>
      exists i :: 0 <= i < |rows| && DateFails(rows[i], toIso)
  {
    FoldFails(rows, Handlers(format, clock, toIso));
  }

  /** The preview a finished pass reports: counts of rows, tickets and errors. */
  function PreviewOf(pass: Result<RowsOutcome, string>, totalRows: nat): Result<ImportPreview, string> {
    match pass
    case Failure(e) => Failure(e)
    case Success(out) => Success(ImportPreview(out.tickets, out.errors, totalRows, |out.tickets|, |out.errors|))
  }

  /** The `forEach` over the records shared by `processCSVData` and `processJSONData`. */
  method ProcessRecords(format: Format, rows: seq<Row>, clock: Clock, toIso: DateToIso) returns (r: Result<ImportPreview, string>)
    ensures r == PreviewOf(ProcessRows(format, rows, clock, toIso), |rows|)
    ensures r.Success? ==>
      && r.value.totalRows == |rows|
      && r.value.validRows == |r.value.tickets| <= r.value.totalRows
      && r.value.invalidRows == |r.value.errors|
  {
    var tickets: seq<Ticket> := [];
    var errors: seq<ImportError> := [];
    ghost var h := Handlers(format, clock, toIso);
    for i := 0 to |rows|
      invariant Fold(rows[..i], h) == Success(RowsOutcome(tickets, errors))
    {
      assert rows[..i + 1][..i] == rows[..i];
      var rowErrors := RowErrors(format, rows[i], i);
      if rowErrors == [] {
        var built := BuildTicket(rows[i], i, clock, toIso);
        if built.Failure? {
          PrefixFailurePersists(rows, i + 1, h);
          r := Failure(built.error);
          return;
        }
        tickets := tickets + [built.value];
      } else {
        errors := errors + rowErrors;
      }
    }
    assert rows[..|rows|] == rows;
    r := Success(ImportPreview(tickets, errors, |rows|, |tickets|, |errors|));
  }

  /** `processCSVData`: rows numbered from 2, the header being line 1. */
  method ProcessCSVData(rows: seq<Row>, clock: Clock, toIso: DateToIso) returns (r: Result<ImportPreview, string>)
    ensures r == PreviewOf(ProcessRows(Csv, rows, clock, toIso), |rows|)
    ensures r.Success? ==> forall e :: e in r.value.errors ==> e.row.Some? && 2 <= e.row.value < |rows| + 2
  {
    r := ProcessRecords(Csv, rows, clock, toIso);
    if r.Success? {
      ProcessRowsErrorRows(Csv, rows, clock, toIso);
    }
  }

  /** What `processJSONData` makes of a document. */
  function JsonPreview(doc: JsonDocument, clock: Clock, toIso: DateToIso): Result<ImportPreview, string> {
    match doc
    case NullDocument => Failure(NullDocumentMessage)
    case OtherDocument => Success(ImportPreview([], [ImportError(None, None, InvalidJsonShapeMessage, None)], 0, 0, 1))
    case TicketsDocument(records) => PreviewOf(ProcessRows(Json, records, clock, toIso), |records|)
  }

  /** `processJSONData`: records numbered from 1; a document without a `tickets` array is one error. */
  method ProcessJSONData(doc: JsonDocument, clock: Clock, toIso: DateToIso) returns (r: Result<ImportPreview, string>)
    ensures r == JsonPreview(doc, clock, toIso)
    ensures doc.OtherDocument? ==>
      && r.Success? && r.value.tickets == [] && |r.value.errors| == 1
      && r.value.errors[0].row.None? && r.value.errors[0].field.None?
      && r.value.totalRows == 0 && r.value.validRows == 0 && r.value.invalidRows == 1
    ensures doc.TicketsDocument? && r.Success? ==>
      forall e :: e in r.value.errors ==> e.row.Some? && 1 <= e.row.value <= |doc.records|
  {
    match doc
    case NullDocument =>
      r := Failure(NullDocumentMessage);
    case OtherDocument =>
      r := Success(ImportPreview([], [ImportError(None, None, InvalidJsonShapeMessage, None)], 0, 0, 1));
    case TicketsDocument(records) =>
      r := ProcessRecords(Json, records, clock, toIso);
      if r.Success? {
        ProcessRowsErrorRows(Json, records, clock, toIso);
      }
  }

  /**
   * `parseJSON` after reading: a read failure is "Failed to read file"; a parse or processing
   * failure is reported as "JSON parsing failed: ...".
   */
  function ParseJsonOutcome(source: JsonSource, clock: Clock, toIso: DateToIso): Result<ImportPreview, string> {
    match source
    case ReadFailed => Failure("Failed to read file")
    case Malformed(m) => Failure("JSON parsing failed: " + m)
    case Parsed(doc) =>
      match JsonPreview(doc, clock, toIso)
      case Failure(e) => Failure("JSON parsing failed: " + e)
      case Success(p) => Success(p)
  }

  /**
   * `importFromFile`: dispatch on the format name. `csvRows` is what the CSV tokenizer delivered
   * (or its error message), `json` what reading and `JSON.parse` delivered.
   */
  method ImportFromFile(format: string, csvRows: Result<seq<Row>, string>, json: JsonSource, clock: Clock, toIso: DateToIso)
    returns (r: Result<ImportPreview, string>)
    ensures format == "csv" && csvRows.Failure? ==> r == Failure("CSV parsing failed: " + csvRows.error)
    ensures format == "csv" && csvRows.Success? ==> r == PreviewOf(ProcessRows(Csv, csvRows.value, clock, toIso), |csvRows.value|)
    ensures format == "json" ==> r == ParseJsonOutcome(json, clock, toIso)
    ensures format != "csv" && format != "json" ==> r == Failure("Unsupported import format: " + format)
  {
    if format == "csv" {
      match csvRows
      case Failure(e) =>
        r := Failure("CSV parsing failed: " + e);
      case Success(rows) =>
        r := ProcessCSVData(rows, clock, toIso);
    } else if format == "json" {
      match json
      case ReadFailed =>
        r := Failure("Failed to read file");
      case Malformed(m) =>
        r := Failure("JSON parsing failed: " + m);
      case Parsed(doc) =>
        var p := ProcessJSONData(doc, clock, toIso);
        r := if p.Failure? then Failure("JSON parsing failed: " + p.error) else p;
    } else {
      r := Failure("Unsupported import format: " + format);
    }
  }

  /** The lower-cased text after the last '.' of a file name. */
  function Extension(fileName: string): string {
    ToLower(LastSegment(fileName, '.'))
  }

  /** `detectFileFormat`: the extension decides when it is csv or json; otherwise the MIME type. */
  function DetectFileFormat(fileName: string, mimeType: string): (r: Result<Format, string>)
    ensures Extension(fileName) == "csv" ==> r == Success(Csv)
    ensures Extension(fileName) == "json" ==> r == Success(Json)
    ensures Extension(fileName) !in {"csv", "json"} ==>
      r == (if mimeType == "text/csv" then Success(Csv)
            else if mimeType == "application/json" then Success(Json)
            else Failure(UndetectedFormatMessage))
  {
    var extension := Extension(fileName);
    if extension == "csv" then Success(Csv)
    else if extension == "json" then Success(Json)
    else if mimeType == "text/csv" then Success(Csv)
    else if mimeType == "application/json" then Success(Json)
    else Failure(UndetectedFormatMessage)
  }

  /** A known extension wins over whatever MIME type the browser reports. */
  lemma ExtensionOverridesMime(fileName: string, mime1: string, mime2: string)
    requires Extension(fileName) in {"csv", "json"}
    ensures DetectFileFormat(fileName, mime1) == DetectFileFormat(fileName, mime2)
  {
  }
}
