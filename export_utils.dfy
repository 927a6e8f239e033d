/**
 * Export shaping: the CSV column projection, the priority histogram, the JSON document,
 * and the file name and MIME type each format is saved under.
 */
module ExportUtils {
  import opened Wrappers
  import opened Text
  import opened Types

  /** The CSV header, in column order. */
  const CsvColumns: seq<string> := ["id", "name", "surname", "company", "email", "description", "priority", "createdAt"]

  /** One CSV record: each column paired with the ticket's value for it. */
  type CsvRecord = seq<(string, string)>

  function TicketValues(t: Ticket): seq<string> {
    [t.id, t.name, t.surname, t.company, t.email, t.description, t.priority, t.createdAt]
  }

  /** The projection `exportToCSV` hands to the CSV writer for one ticket. */
  function CsvRecordOf(t: Ticket): (r: CsvRecord)
    ensures |r| == |CsvColumns|
    ensures forall k :: 0 <= k < |r| ==> r[k].0 == CsvColumns[k]
  {
    var v := TicketValues(t);
    seq(|CsvColumns|, k requires 0 <= k < |CsvColumns| => (CsvColumns[k], v[k]))
  }

  /** Reading a ticket back from a record in the export's column order. */
  function TicketOfRecord(r: CsvRecord): Ticket
    requires |r| == |CsvColumns|
  {
    Ticket(r[0].1, r[1].1, r[2].1, r[3].1, r[4].1, r[5].1, r[6].1, r[7].1)
  }

  /** The projection loses nothing: every field of the ticket can be read back. */
  lemma CsvRecordRoundTrip(t: Ticket)
    ensures TicketOfRecord(CsvRecordOf(t)) == t
  {
    var r := CsvRecordOf(t);
    assert r[0].1 == t.id && r[1].1 == t.name && r[2].1 == t.surname && r[3].1 == t.company;
    assert r[4].1 == t.email && r[5].1 == t.description && r[6].1 == t.priority && r[7].1 == t.createdAt;
  }

  /** `tickets.map(...)`: one record per ticket, in order. */
  function CsvRecords(tickets: seq<Ticket>): (rs: seq<CsvRecord>)
    ensures |rs| == |tickets|
    ensures forall k :: 0 <= k < |rs| ==> rs[k] == CsvRecordOf(tickets[k])
  {
    seq(|tickets|, k requires 0 <= k < |tickets| => CsvRecordOf(tickets[k]))
  }

  /** Some ticket carries the priority. */
  ghost predicate Occurs(tickets: seq<Ticket>, p: string) {
    exists t :: t in tickets && t.priority == p
  }

  /** A priority occurs in a list with one more ticket iff it occurs before it or is that ticket's. */
  lemma OccursAppend(s: seq<Ticket>, t: Ticket)
    ensures forall p :: Occurs(s + [t], p) <==> Occurs(s, p) || t.priority == p
  {
    assert forall u :: u in s + [t] <==> u in s || u == t;
  }

  /** How many tickets carry the priority. */
  function Count(tickets: seq<Ticket>, p: string): (n: nat)
    ensures n <= |tickets|
  {
    if tickets == [] then 0
    else
      var last := tickets[|tickets| - 1];
      Count(tickets[..|tickets| - 1], p) + if last.priority == p then 1 else 0
  }

  /** The count is positive exactly for the priorities that occur. */
  lemma {:induction false} CountOccurs(tickets: seq<Ticket>)
    ensures forall p :: Count(tickets, p) > 0 <==> Occurs(tickets, p)
  {
    if tickets != [] {
      var n := |tickets| - 1;
      CountOccurs(tickets[..n]);
      assert tickets == tickets[..n] + [tickets[n]];
      OccursAppend(tickets[..n], tickets[n]);
    }
  }

  /** The histogram the `reduce` builds. */
  function Distribution(tickets: seq<Ticket>): map<string, nat> {
    if tickets == [] then map[]
    else
      var m := Distribution(tickets[..|tickets| - 1]);
      var p := tickets[|tickets| - 1].priority;
      m[p := (if p in m then m[p] else 0) + 1]
  }

  /** One key per priority that occurs, holding its count. */
  lemma {:induction false} DistributionCounts(tickets: seq<Ticket>)
    ensures forall p :: p in Distribution(tickets) <==> Occurs(tickets, p)
    ensures forall p :: p in Distribution(tickets) ==> Distribution(tickets)[p] == Count(tickets, p)
  {
    if tickets != [] {
      var n := |tickets| - 1;
      DistributionCounts(tickets[..n]);
      CountOccurs(tickets[..n]);
      assert tickets == tickets[..n] + [tickets[n]];
      OccursAppend(tickets[..n], tickets[n]);
    }
  }

  /** The histogram's keys in the order the `reduce` first meets them, each once. */
  function Keys(tickets: seq<Ticket>): (ks: seq<string>)
    ensures forall i, j :: 0 <= i < j < |ks| ==> ks[i] != ks[j]
  {
    if tickets == [] then []
    else
      var ks := Keys(tickets[..|tickets| - 1]);
      var p := tickets[|tickets| - 1].priority;
      if p in ks then ks else ks + [p]
  }

  /** The keys are exactly the priorities that occur. */
  lemma {:induction false} KeysOccur(tickets: seq<Ticket>)
    ensures forall p :: p in Keys(tickets) <==> Occurs(tickets, p)
  {
    if tickets != [] {
      var n := |tickets| - 1;
      KeysOccur(tickets[..n]);
      assert tickets == tickets[..n] + [tickets[n]];
      OccursAppend(tickets[..n], tickets[n]);
    }
  }

  /** The sum of the map's values over the keys. */
  function SumOver(ks: seq<string>, m: map<string, nat>): nat
    requires forall k :: k in ks ==> k in m
  {
    if ks == [] then 0 else SumOver(ks[..|ks| - 1], m) + m[ks[|ks| - 1]]
  }

  lemma {:induction false} SumOverAgree(ks: seq<string>, m1: map<string, nat>, m2: map<string, nat>)
    requires forall k :: k in ks ==> k in m1 && k in m2 && m1[k] == m2[k]
    ensures SumOver(ks, m1) == SumOver(ks, m2)
  {
    if ks != [] {
      SumOverAgree(ks[..|ks| - 1], m1, m2);
    }
  }

  lemma {:induction false} SumOverBump(ks: seq<string>, m: map<string, nat>, p: string)
    requires forall k :: k in ks ==> k in m
    requires forall i, j :: 0 <= i < j < |ks| ==> ks[i] != ks[j]
    requires p in ks
    ensures SumOver(ks, m[p := m[p] + 1]) == SumOver(ks, m) + 1
  {
    var n := |ks| - 1;
    var m' := m[p := m[p] + 1];
    if ks[n] == p {
      assert p !in ks[..n];
      SumOverAgree(ks[..n], m', m);
    } else {
      SumOverBump(ks[..n], m, p);
    }
  }

  /** The histogram's counts add up to the number of tickets exported. */
  lemma {:induction false} DistributionTotals(tickets: seq<Ticket>)
    ensures forall k :: k in Keys(tickets) ==> k in Distribution(tickets)
    ensures SumOver(Keys(tickets), Distribution(tickets)) == |tickets|
  {
    if tickets != [] {
      var n := |tickets| - 1;
      var prefix := tickets[..n];
      DistributionTotals(prefix);
      KeysAreDistributionKeys(prefix);
      TotalsStep(Keys(prefix), Distribution(prefix), tickets[n].priority, Keys(tickets), Distribution(tickets), n);
    }
  }

  /** The order of the keys and the histogram have the same keys. */
  lemma KeysAreDistributionKeys(tickets: seq<Ticket>)
    ensures forall p :: p in Keys(tickets) <==> p in Distribution(tickets)
  {
    KeysOccur(tickets);
    DistributionCounts(tickets);
  }

  /** Counting one more ticket of priority `p` adds one to the sum. */
  lemma TotalsStep(ks: seq<string>, m: map<string, nat>, p: string, ks': seq<string>, m': map<string, nat>, n: nat)
    requires forall k :: k in ks ==> k in m
    requires forall i, j :: 0 <= i < j < |ks| ==> ks[i] != ks[j]
    requires SumOver(ks, m) == n
    requires p in ks <==> p in m
    requires m' == m[p := (if p in m then m[p] else 0) + 1]
    requires ks' == if p in ks then ks else ks + [p]
    ensures forall k :: k in ks' ==> k in m'
    ensures SumOver(ks', m') == n + 1
  {
    if p in ks {
      SumOverBump(ks, m, p);
    } else {
      SumOverNewKey(ks, m, p);
    }
  }

  lemma SumOverNewKey(ks: seq<string>, m: map<string, nat>, p: string)
    requires forall k :: k in ks ==> k in m
    requires p !in ks && p !in m
    ensures forall k :: k in ks + [p] ==> k in m[p := 1]
    ensures SumOver(ks + [p], m[p := 1]) == SumOver(ks, m) + 1
  {
    assert (ks + [p])[..|ks|] == ks;
    SumOverAgree(ks, m[p := 1], m);
  }

  /** The JSON document: the tickets untouched, version "1.0", and metadata only when asked for. */
  function JsonExport(tickets: seq<Ticket>, exportDate: string, includeMetadata: Option<bool>): (d: JsonExportData)
    ensures d.tickets == tickets && d.version == "1.0" && d.exportDate == exportDate
    ensures d.metadata.Some? <==> includeMetadata == Some(true)
    ensures d.metadata.Some? ==>
      d.metadata.value.totalTickets == |tickets| && d.metadata.value.priorityDistribution == Distribution(tickets)
  {
    JsonExportData(
      tickets, exportDate, "1.0",
      if includeMetadata == Some(true) then Some(Metadata(|tickets|, Distribution(tickets))) else None)
  }

  /** `options.filename || 'tickets'` */
  function BaseName(filename: Option<string>): (r: string)
    ensures r != ""
    ensures filename.Some? && filename.value != "" ==> r == filename.value
  {
    if filename.Some? && filename.value != "" then filename.value else "tickets"
  }

  /** What `downloadFile` is asked to save. */
  datatype Download =
    | CsvFile(records: seq<CsvRecord>, filename: string, mimeType: string)
    | JsonFile(document: JsonExportData, filename: string, mimeType: string)

  /** `exportTickets`: dispatch on the format; any other format throws. */
  function ExportTickets(tickets: seq<Ticket>, options: ExportOptions, exportDate: string): (r: Result<Download, string>)
    ensures r.Failure? <==> options.format != "csv" && options.format != "json"
    ensures r.Failure? ==> r.error == "Unsupported export format: " + options.format
    ensures r.Success? ==> r.value.filename == BaseName(options.filename) + "." + options.format
    ensures r.Success? ==> (r.value.CsvFile? <==> options.format == "csv")
    ensures r.Success? && r.value.CsvFile? ==> r.value.records == CsvRecords(tickets) && r.value.mimeType == "text/csv"
    ensures r.Success? && r.value.JsonFile? ==>
      r.value.document == JsonExport(tickets, exportDate, options.includeMetadata) && r.value.mimeType == "application/json"
  {
    if options.format == "csv" then
      Success(CsvFile(CsvRecords(tickets), BaseName(options.filename) + ".csv", "text/csv"))
    else if options.format == "json" then
      Success(JsonFile(JsonExport(tickets, exportDate, options.includeMetadata), BaseName(options.filename) + ".json", "application/json"))
    else
      Failure("Unsupported export format: " + options.format)
  }

  /** The extension is appended whatever the name already ends with. */
  lemma ExtensionAppendedTwice(name: string, tickets: seq<Ticket>, exportDate: string)
    ensures var r := ExportTickets(tickets, ExportOptions("csv", None, Some(name + ".csv")), exportDate);
      r.Success? && r.value.filename == name + ".csv.csv"
  {
    assert name + ".csv" != "";
  }

  /** `generateDefaultFilename`: `tickets_`, the date part of the ISO time, the format. */
  function GenerateDefaultFilename(nowIso: string, format: string): (r: string)
    ensures |r| >= 9 + |format| && r[..8] == "tickets_"
    ensures r[|r| - |format| - 1..] == "." + format
  {
    "tickets_" + BeforeFirst(nowIso, 'T') + "." + format
  }

  lemma {:induction false} BeforeFirstOfSplit(date: string, rest: string)
    requires 'T' !in date
    ensures BeforeFirst(date + "T" + rest, 'T') == date
  {
    if date != [] {
      assert (date + "T" + rest)[1..] == date[1..] + "T" + rest;
      BeforeFirstOfSplit(date[1..], rest);
    }
  }

  /** For a timestamp `<date>T<time>`, the default name is `tickets_<date>.<format>`. */
  lemma DefaultFilenameOfIso(date: string, time: string, format: string)
    requires 'T' !in date
    ensures GenerateDefaultFilename(date + "T" + time, format) == "tickets_" + date + "." + format
  {
    BeforeFirstOfSplit(date, time);
  }

  /** `reduce` over the tickets into a mutable record. */
  method PriorityDistribution(tickets: seq<Ticket>) returns (acc: map<string, nat>)
    ensures acc == Distribution(tickets)
  {
    acc := map[];
    for i := 0 to |tickets|
      invariant acc == Distribution(tickets[..i])
    {
      assert tickets[..i + 1] == tickets[..i] + [tickets[i]];
      DistributionAppend(tickets[..i], tickets[i]);
      var p := tickets[i].priority;
      acc := acc[p := (if p in acc then acc[p] else 0) + 1];
    }
    assert tickets[..|tickets|] == tickets;
  }

  /** One more ticket adds one to its priority's count, starting from zero for a new key. */
  lemma DistributionAppend(s: seq<Ticket>, t: Ticket)
    ensures var m := Distribution(s);
      Distribution(s + [t]) == m[t.priority := (if t.priority in m then m[t.priority] else 0) + 1]
  {
    assert (s + [t])[..|s|] == s;
  }
}
