/**
 * MetricsSnapshot.cs: the immutable, timestamped bundle of the five metric
 * sequences, and `FormatLast`, the six-line console summary built from the
 * last entry of each sequence.  The .NET formatting of dates ("O"), spans
 * ("g"), rates ("F2") and integers, and the platform's line terminator, are
 * kept abstract as the functions of a `Formats` value.
 */
module Snapshots {
  import opened Wrappers
  import opened Operations

  /** The constructor stores all six arguments unchanged, so it is a plain datatype. */
  datatype MetricsSnapshot = MetricsSnapshot(
    createdAt: int,
    selectMetrics: seq<SelectMetrics>,
    insertMetrics: seq<InsertMetrics>,
    updateMetrics: seq<UpdateMetrics>,
    deleteMetrics: seq<DeleteMetrics>,
    vacuumMetrics: seq<VacuumMetrics>)

  /** The formatting `FormatLast` delegates to .NET. */
  datatype Formats = Formats(
    date: int -> string,
    duration: int -> string,
    rate: real -> string,
    number: int -> string,
    newLine: string)

  /** `LastOrDefault` on an array of records: the last entry, or nothing when it is empty. */
  function LastOrDefault<T>(s: seq<T>): (r: Option<T>)
    ensures r.None? <==> |s| == 0
    ensures r.Some? ==> r.value == s[|s| - 1]
  {
    if |s| == 0 then None else Some(s[|s| - 1])
  }

  /** The text an interpolation hole shows: a missing record (`null?.Field`) shows as nothing. */
  function OrEmpty(present: bool, text: string): string {
    if present then text else ""
  }

  /** The head of a kind's line: its name and the length of its sequence in brackets. */
  function Heading(name: string, count: int, f: Formats): string {
    name + "[" + f.number(count) + "]"
  }

  function DateLine(s: MetricsSnapshot, f: Formats): string {
    "Date: " + f.date(s.createdAt)
  }

  function InsertFields(last: Option<InsertMetrics>, f: Formats): string {
    var m := if last.Some? then last.value else InsertMetrics(0, 0, 0, 0, 0, 0, Speed.SpeedMetrics(0.0, 0));
    " - Duration: " + OrEmpty(last.Some?, f.duration(m.duration))
      + ", Rate: " + OrEmpty(last.Some?, f.rate(m.speed.ratePerSecond))
      + ", Total: " + OrEmpty(last.Some?, f.number(m.alreadyWrittenItems))
      + ", Inserted: " + OrEmpty(last.Some?, f.number(m.actualInsertedItems))
  }

  function SelectFields(last: Option<SelectMetrics>, f: Formats): string {
    var m := if last.Some? then last.value else SelectMetrics(0, 0, 0, 0, 0, 0, 0, Speed.SpeedMetrics(0.0, 0));
    " - Duration: " + OrEmpty(last.Some?, f.duration(m.duration))
      + ", Rate: " + OrEmpty(last.Some?, f.rate(m.speed.ratePerSecond))
      + ", Total: " + OrEmpty(last.Some?, f.number(m.alreadyWrittenItems))
      + ", Selected: " + OrEmpty(last.Some?, f.number(m.actualSelectedItems))
  }

  /** The update and delete lines label their affected count "Selected" too. */
  function UpdateFields(last: Option<UpdateMetrics>, f: Formats): string {
    var m := if last.Some? then last.value else UpdateMetrics(0, 0, 0, 0, 0, 0, 0, 0, Speed.SpeedMetrics(0.0, 0));
    " - Duration: " + OrEmpty(last.Some?, f.duration(m.duration))
      + ", Rate: " + OrEmpty(last.Some?, f.rate(m.speed.ratePerSecond))
      + ", Total: " + OrEmpty(last.Some?, f.number(m.alreadyWrittenItems))
      + ", Selected: " + OrEmpty(last.Some?, f.number(m.actualUpdatedItems))
  }

  function DeleteFields(last: Option<DeleteMetrics>, f: Formats): string {
    var m := if last.Some? then last.value else DeleteMetrics(0, 0, 0, 0, 0, 0, 0, Speed.SpeedMetrics(0.0, 0));
    " - Duration: " + OrEmpty(last.Some?, f.duration(m.duration))
      + ", Rate: " + OrEmpty(last.Some?, f.rate(m.speed.ratePerSecond))
      + ", Total: " + OrEmpty(last.Some?, f.number(m.alreadyWrittenItems))
      + ", Selected: " + OrEmpty(last.Some?, f.number(m.actualDeletedItems))
  }

  /** The vacuum line has no rate and no counts. */
  function VacuumFields(last: Option<VacuumMetrics>, f: Formats): string {
    var m := if last.Some? then last.value else VacuumMetrics(0, 0, 0, 0, 0, 0);
    " - Duration: " + OrEmpty(last.Some?, f.duration(m.duration))
  }

  function InsertLine(s: MetricsSnapshot, f: Formats): string {
    Heading("Insert", |s.insertMetrics|, f) + InsertFields(LastOrDefault(s.insertMetrics), f)
  }

  function SelectLine(s: MetricsSnapshot, f: Formats): string {
    Heading("Select", |s.selectMetrics|, f) + SelectFields(LastOrDefault(s.selectMetrics), f)
  }

  function UpdateLine(s: MetricsSnapshot, f: Formats): string {
    Heading("Update", |s.updateMetrics|, f) + UpdateFields(LastOrDefault(s.updateMetrics), f)
  }

  function DeleteLine(s: MetricsSnapshot, f: Formats): string {
    Heading("Delete", |s.deleteMetrics|, f) + DeleteFields(LastOrDefault(s.deleteMetrics), f)
  }

  function VacuumLine(s: MetricsSnapshot, f: Formats): string {
    Heading("Vacuum", |s.vacuumMetrics|, f) + VacuumFields(LastOrDefault(s.vacuumMetrics), f)
  }

  /** The lines of the summary, in the order `FormatLast` appends them. */
  function SummaryLines(s: MetricsSnapshot, f: Formats): (lines: seq<string>)
    ensures |lines| == 6
    ensures "Date: " <= lines[0]
    ensures Heading("Insert", |s.insertMetrics|, f) <= lines[1]
    ensures Heading("Select", |s.selectMetrics|, f) <= lines[2]
    ensures Heading("Update", |s.updateMetrics|, f) <= lines[3]
    ensures Heading("Delete", |s.deleteMetrics|, f) <= lines[4]
    ensures Heading("Vacuum", |s.vacuumMetrics|, f) <= lines[5]
  {
    PrefixOfConcat("Date: ", f.date(s.createdAt));
    PrefixOfConcat(Heading("Insert", |s.insertMetrics|, f), InsertFields(LastOrDefault(s.insertMetrics), f));
    PrefixOfConcat(Heading("Select", |s.selectMetrics|, f), SelectFields(LastOrDefault(s.selectMetrics), f));
    PrefixOfConcat(Heading("Update", |s.updateMetrics|, f), UpdateFields(LastOrDefault(s.updateMetrics), f));
    PrefixOfConcat(Heading("Delete", |s.deleteMetrics|, f), DeleteFields(LastOrDefault(s.deleteMetrics), f));
    PrefixOfConcat(Heading("Vacuum", |s.vacuumMetrics|, f), VacuumFields(LastOrDefault(s.vacuumMetrics), f));
    [DateLine(s, f), InsertLine(s, f), SelectLine(s, f), UpdateLine(s, f), DeleteLine(s, f), VacuumLine(s, f)]
  }

  lemma PrefixOfConcat(a: string, b: string)
    ensures a <= a + b
  {
    assert (a + b)[..|a|] == a;
  }

  /** What a `StringBuilder` holds after `AppendLine` of each of `lines` in turn. */
  function AppendedLines(lines: seq<string>, newLine: string): string {
    if lines == [] then "" else lines[0] + newLine + AppendedLines(lines[1..], newLine)
  }

  /** Appending one more line extends the builder's text by that line and the terminator. */
  lemma {:induction false} AppendedLinesSnoc(lines: seq<string>, line: string, newLine: string)
    ensures AppendedLines(lines + [line], newLine) == AppendedLines(lines, newLine) + line + newLine
  {
    if lines == [] {
      assert [] + [line] == [line];
    } else {
      assert (lines + [line])[1..] == lines[1..] + [line];
      AppendedLinesSnoc(lines[1..], line, newLine);
    }
  }

  /** `FormatLast`: the summary lines, appended one by one to an empty builder. */
  method FormatLast(s: MetricsSnapshot, f: Formats) returns (text: string)
    ensures text == AppendedLines(SummaryLines(s, f), f.newLine)
  {
    var lines := SummaryLines(s, f);
    text := AppendSix(lines, f.newLine);
  }

  /** Six successive `AppendLine` calls on an empty builder. */
  method AppendSix(lines: seq<string>, newLine: string) returns (text: string)
    requires |lines| == 6
    ensures text == AppendedLines(lines, newLine)
  {
    var builder := "";
    ghost var appended: seq<string> := [];
    builder, appended := AppendLine(builder, appended, lines[0], newLine);
    builder, appended := AppendLine(builder, appended, lines[1], newLine);
    builder, appended := AppendLine(builder, appended, lines[2], newLine);
    builder, appended := AppendLine(builder, appended, lines[3], newLine);
    builder, appended := AppendLine(builder, appended, lines[4], newLine);
    builder, appended := AppendLine(builder, appended, lines[5], newLine);
    assert appended == lines;
    text := builder;
  }

  /** `StringBuilder.AppendLine`, with the lines appended so far as a ghost record. */
  method AppendLine(builder: string, ghost appended: seq<string>, line: string, newLine: string)
    returns (builder': string, ghost appended': seq<string>)
    requires builder == AppendedLines(appended, newLine)
    ensures appended' == appended + [line]
    ensures builder' == AppendedLines(appended', newLine)
    ensures builder' == builder + line + newLine
  {
    builder' := builder + line + newLine;
    appended' := appended + [line];
    AppendedLinesSnoc(appended, line, newLine);
  }

  /**
   * The summary depends on each sequence only through its length and its
   * last entry: snapshots that agree on those print the same lines.
   */
  lemma SummaryShowsOnlyLast(s1: MetricsSnapshot, s2: MetricsSnapshot, f: Formats)
    requires s1.createdAt == s2.createdAt
    requires |s1.insertMetrics| == |s2.insertMetrics| && LastOrDefault(s1.insertMetrics) == LastOrDefault(s2.insertMetrics)
    requires |s1.selectMetrics| == |s2.selectMetrics| && LastOrDefault(s1.selectMetrics) == LastOrDefault(s2.selectMetrics)
    requires |s1.updateMetrics| == |s2.updateMetrics| && LastOrDefault(s1.updateMetrics) == LastOrDefault(s2.updateMetrics)
    requires |s1.deleteMetrics| == |s2.deleteMetrics| && LastOrDefault(s1.deleteMetrics) == LastOrDefault(s2.deleteMetrics)
    requires |s1.vacuumMetrics| == |s2.vacuumMetrics| && LastOrDefault(s1.vacuumMetrics) == LastOrDefault(s2.vacuumMetrics)
    ensures SummaryLines(s1, f) == SummaryLines(s2, f)
  {
  }

  /**
   * Of the last vacuum record only the duration is shown: two vacuum
   * sequences of equal length whose last entries took equally long give the
   * same line, whatever their counter readings.
   */
  lemma VacuumLineShowsOnlyDuration(s1: MetricsSnapshot, s2: MetricsSnapshot, f: Formats)
    requires |s1.vacuumMetrics| == |s2.vacuumMetrics| > 0
    requires s1.vacuumMetrics[|s1.vacuumMetrics| - 1].duration == s2.vacuumMetrics[|s2.vacuumMetrics| - 1].duration
    ensures SummaryLines(s1, f)[5] == SummaryLines(s2, f)[5]
  {
  }

  /** An empty sequence shows its zero count and leaves every field of its line blank. */
  lemma EmptyInsertLine(s: MetricsSnapshot, f: Formats)
    requires s.insertMetrics == []
    ensures SummaryLines(s, f)[1] == Heading("Insert", 0, f) + " - Duration: " + ", Rate: " + ", Total: " + ", Inserted: "
  {
    assert LastOrDefault(s.insertMetrics) == None;
    BlankInsertFields(f);
  }

  lemma BlankInsertFields(f: Formats)
    ensures InsertFields(None, f) == " - Duration: " + ", Rate: " + ", Total: " + ", Inserted: "
  {
    assert OrEmpty(false, f.duration(0)) == "";
    assert OrEmpty(false, f.rate(0.0)) == "";
    assert OrEmpty(false, f.number(0)) == "";
  }

  /** The first line is `Date: ` and the snapshot's creation time. */
  lemma DateLineShowsCreatedAt(s: MetricsSnapshot, f: Formats)
    ensures SummaryLines(s, f)[0] == "Date: " + f.date(s.createdAt)
  {
  }

  /** A non-empty insert sequence's line shows its last entry's duration, rate, total and count. */
  lemma InsertLineShowsLast(s: MetricsSnapshot, f: Formats)
    requires |s.insertMetrics| > 0
    ensures var m := s.insertMetrics[|s.insertMetrics| - 1];
      SummaryLines(s, f)[1] == Heading("Insert", |s.insertMetrics|, f)
        + " - Duration: " + f.duration(m.duration) + ", Rate: " + f.rate(m.speed.ratePerSecond)
        + ", Total: " + f.number(m.alreadyWrittenItems) + ", Inserted: " + f.number(m.actualInsertedItems)
  {
    assert SummaryLines(s, f)[1] == InsertLine(s, f);
    assert LastOrDefault(s.insertMetrics) == Some(s.insertMetrics[|s.insertMetrics| - 1]);
  }

  /** A non-empty select sequence's line shows its last entry's duration, rate, total and count. */
  lemma SelectLineShowsLast(s: MetricsSnapshot, f: Formats)
    requires |s.selectMetrics| > 0
    ensures var m := s.selectMetrics[|s.selectMetrics| - 1];
      SummaryLines(s, f)[2] == Heading("Select", |s.selectMetrics|, f)
        + " - Duration: " + f.duration(m.duration) + ", Rate: " + f.rate(m.speed.ratePerSecond)
        + ", Total: " + f.number(m.alreadyWrittenItems) + ", Selected: " + f.number(m.actualSelectedItems)
  {
    assert SummaryLines(s, f)[2] == SelectLine(s, f);
    assert LastOrDefault(s.selectMetrics) == Some(s.selectMetrics[|s.selectMetrics| - 1]);
  }

  /** A non-empty update sequence's line shows its last entry's figures, the count labelled "Selected". */
  lemma UpdateLineShowsLast(s: MetricsSnapshot, f: Formats)
    requires |s.updateMetrics| > 0
    ensures var m := s.updateMetrics[|s.updateMetrics| - 1];
      SummaryLines(s, f)[3] == Heading("Update", |s.updateMetrics|, f)
        + " - Duration: " + f.duration(m.duration) + ", Rate: " + f.rate(m.speed.ratePerSecond)
        + ", Total: " + f.number(m.alreadyWrittenItems) + ", Selected: " + f.number(m.actualUpdatedItems)
  {
    assert SummaryLines(s, f)[3] == UpdateLine(s, f);
    assert LastOrDefault(s.updateMetrics) == Some(s.updateMetrics[|s.updateMetrics| - 1]);
  }

  /** A non-empty delete sequence's line shows its last entry's figures, the count labelled "Selected". */
  lemma DeleteLineShowsLast(s: MetricsSnapshot, f: Formats)
    requires |s.deleteMetrics| > 0
    ensures var m := s.deleteMetrics[|s.deleteMetrics| - 1];
      SummaryLines(s, f)[4] == Heading("Delete", |s.deleteMetrics|, f)
        + " - Duration: " + f.duration(m.duration) + ", Rate: " + f.rate(m.speed.ratePerSecond)
        + ", Total: " + f.number(m.alreadyWrittenItems) + ", Selected: " + f.number(m.actualDeletedItems)
  {
    assert SummaryLines(s, f)[4] == DeleteLine(s, f);
    assert LastOrDefault(s.deleteMetrics) == Some(s.deleteMetrics[|s.deleteMetrics| - 1]);
  }

  /** A non-empty vacuum sequence's line shows its last entry's duration. */
  lemma VacuumLineShowsLast(s: MetricsSnapshot, f: Formats)
    requires |s.vacuumMetrics| > 0
    ensures SummaryLines(s, f)[5] == Heading("Vacuum", |s.vacuumMetrics|, f)
        + " - Duration: " + f.duration(s.vacuumMetrics[|s.vacuumMetrics| - 1].duration)
  {
    assert SummaryLines(s, f)[5] == VacuumLine(s, f);
    assert LastOrDefault(s.vacuumMetrics) == Some(s.vacuumMetrics[|s.vacuumMetrics| - 1]);
  }

  lemma EmptySelectLine(s: MetricsSnapshot, f: Formats)
    requires s.selectMetrics == []
    ensures SummaryLines(s, f)[2] == Heading("Select", 0, f) + " - Duration: " + ", Rate: " + ", Total: " + ", Selected: "
  {
    assert LastOrDefault(s.selectMetrics) == None;
  }

  lemma EmptyUpdateLine(s: MetricsSnapshot, f: Formats)
    requires s.updateMetrics == []
    ensures SummaryLines(s, f)[3] == Heading("Update", 0, f) + " - Duration: " + ", Rate: " + ", Total: " + ", Selected: "
  {
    assert LastOrDefault(s.updateMetrics) == None;
  }

  lemma EmptyDeleteLine(s: MetricsSnapshot, f: Formats)
    requires s.deleteMetrics == []
    ensures SummaryLines(s, f)[4] == Heading("Delete", 0, f) + " - Duration: " + ", Rate: " + ", Total: " + ", Selected: "
  {
    assert LastOrDefault(s.deleteMetrics) == None;
  }

  lemma EmptyVacuumLine(s: MetricsSnapshot, f: Formats)
    requires s.vacuumMetrics == []
    ensures SummaryLines(s, f)[5] == Heading("Vacuum", 0, f) + " - Duration: "
  {
    assert LastOrDefault(s.vacuumMetrics) == None;
  }
}
