/**
 * The finding record every rule produces and every reporter consumes
 * (`Reporter.Report`), with its two constructors and the counting of
 * findings by severity that several reporters share.
 */
module Reporting {
  import opened Wrappers
  import opened Model

  /** An immutable finding: every field is fixed when the record is built. */
  datatype Report = Report(
    severity: Severity,
    message: string,
    referenceItem: Option<JavaItem>,
    newItem: Option<JavaItem>,
    source: Option<string>)

  /** An item whose report source is defined: it has an owner, or else it is a class. */
  predicate HasSource(item: JavaItem) {
    item.OwnerOf().Some? || item.ClassItem?
  }

  /** The file the owner of `item` comes from, or for a top-level class its own file. */
  function SourceOf(item: JavaItem): Option<string>
    requires HasSource(item)
  {
    match item.OwnerOf()
    case Some(o) => o.filename
    case None => item.cls.Filename()
  }

  /** `new Report(severity, message, referenceItem, newItem)`. */
  function NewReport(severity: Severity, message: string, referenceItem: JavaItem, newItem: Option<JavaItem>): (r: Report)
    requires HasSource(referenceItem)
    ensures r.severity == severity && r.message == message
    ensures r.referenceItem == Some(referenceItem) && r.newItem == newItem
    ensures referenceItem.OwnerOf().Some? ==> r.source == referenceItem.OwnerOf().value.filename
    ensures referenceItem.OwnerOf().None? ==> referenceItem.ClassItem? && r.source == referenceItem.cls.source
  {
    Report(severity, message, Some(referenceItem), newItem, SourceOf(referenceItem))
  }

  /** `new Report(severity, message)`: a finding tied to no item and no source. */
  function MessageReport(severity: Severity, message: string): (r: Report)
    ensures r.severity == severity && r.message == message
    ensures r.referenceItem.None? && r.newItem.None? && r.source.None?
  {
    Report(severity, message, None, None, None)
  }

  /** The suffix "(line)" when the new item is a method, and "" otherwise (`getLine`). */
  function LineSuffix(report: Report): (s: string)
    ensures s != "" <==> report.newItem.Some? && report.newItem.value.MethodItem?
    ensures s != "" ==> |s| >= 3 && s[0] == '(' && s[|s| - 1] == ')'
    ensures s != "" ==> s[1..|s| - 1] == IntToString(report.newItem.value.meth.lineNumber)
  {
    if report.newItem.Some? && report.newItem.value.MethodItem?
    then "(" + IntToString(report.newItem.value.meth.lineNumber) + ")"
    else ""
  }

  /** The number of reports in `reports` whose severity is `s`. */
  function CountSeverity(reports: seq<Report>, s: Severity): nat
    decreases |reports|
  {
    if reports == [] then 0
    else CountSeverity(reports[..|reports| - 1], s) + (if reports[|reports| - 1].severity == s then 1 else 0)
  }

  /** Counting distributes over concatenation. */
  lemma {:induction false} CountSeverityAppend(a: seq<Report>, b: seq<Report>, s: Severity)
    ensures CountSeverity(a + b, s) == CountSeverity(a, s) + CountSeverity(b, s)
    decreases |b|
  {
    if b == [] {
      assert a + b == a;
    } else {
      var b' := b[..|b| - 1];
      assert (a + b)[..|a + b| - 1] == a + b';
      CountSeverityAppend(a, b', s);
    }
  }

  /** The count is positive exactly when some report has the severity, and never exceeds the length. */
  lemma {:induction false} CountSeverityPositive(reports: seq<Report>, s: Severity)
    ensures CountSeverity(reports, s) <= |reports|
    ensures CountSeverity(reports, s) > 0 <==> exists i :: 0 <= i < |reports| && reports[i].severity == s
    decreases |reports|
  {
    if reports != [] {
      var init := reports[..|reports| - 1];
      CountSeverityPositive(init, s);
      if CountSeverity(init, s) > 0 {
        var i :| 0 <= i < |init| && init[i].severity == s;
        assert reports[i].severity == s;
      }
      if exists i :: 0 <= i < |reports| && reports[i].severity == s {
        var i :| 0 <= i < |reports| && reports[i].severity == s;
        if i < |init| {
          assert init[i].severity == s;
        }
      }
    }
  }

  /** Every report has exactly one severity, so the four counts add up to the number of reports. */
  lemma {:induction false} CountSeverityPartition(reports: seq<Report>)
    ensures CountSeverity(reports, Error) + CountSeverity(reports, Warning)
          + CountSeverity(reports, Info) + CountSeverity(reports, Debug) == |reports|
    decreases |reports|
  {
    if reports != [] {
      CountSeverityPartition(reports[..|reports| - 1]);
    }
  }
}
