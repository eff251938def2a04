/**
 * The command-line reporter: it keeps every finding, prints the errors and
 * warnings on standard output, and counts the kept findings by severity.
 * Standard output is modelled as the sequence of lines printed so far.
 */
module CommandLine {
  import opened Model
  import opened Reporting

  /** Only errors and warnings reach standard output. */
  predicate IsPrinted(s: Severity) {
    s == Error || s == Warning
  }

  /** The printed form: the bare message without a source, else "SEVERITY: source(line): message". */
  function Format(report: Report): (line: string)
    ensures report.source.None? ==> line == report.message
    ensures report.source.Some? ==>
              var prefix := SeverityName(report.severity) + ": " + report.source.value;
              |prefix| <= |line| && line[..|prefix|] == prefix
    ensures |report.message| <= |line| && line[|line| - |report.message|..] == report.message
  {
    if report.source.None? then report.message
    else SeverityName(report.severity) + ": " + report.source.value + LineSuffix(report) + ": " + report.message
  }

  /** The lines printed for `reports`, in order. */
  function PrintedLines(reports: seq<Report>): seq<string>
    decreases |reports|
  {
    if reports == [] then []
    else
      var last := reports[|reports| - 1];
      PrintedLines(reports[..|reports| - 1]) + (if IsPrinted(last.severity) then [Format(last)] else [])
  }

  /** One line is printed per error or warning, and none for the rest. */
  lemma {:induction false} PrintedLinesCount(reports: seq<Report>)
    ensures |PrintedLines(reports)| == CountSeverity(reports, Error) + CountSeverity(reports, Warning)
    decreases |reports|
  {
    if reports != [] {
      PrintedLinesCount(reports[..|reports| - 1]);
    }
  }

  /** Every printed line is the format of some error or warning among the reports. */
  lemma {:induction false} PrintedLinesSource(reports: seq<Report>, k: nat)
    requires k < |PrintedLines(reports)|
    ensures exists i :: 0 <= i < |reports| && IsPrinted(reports[i].severity) && PrintedLines(reports)[k] == Format(reports[i])
    decreases |reports|
  {
    var init := reports[..|reports| - 1];
    if k < |PrintedLines(init)| {
      PrintedLinesSource(init, k);
      var i :| 0 <= i < |init| && IsPrinted(init[i].severity) && PrintedLines(init)[k] == Format(init[i]);
      assert reports[i] == init[i];
    } else {
      assert PrintedLines(reports)[k] == Format(reports[|reports| - 1]);
    }
  }

  class CLIReporter {
    var reports: seq<Report>
    var printed: seq<string>

    /** What was printed is exactly the printed form of the errors and warnings kept. */
    ghost predicate Valid()
      reads this
    {
      printed == PrintedLines(reports)
    }

    constructor ()
      ensures Valid() && reports == [] && printed == []
    {
      reports := [];
      printed := [];
    }

    /** Keeps `report` whatever its severity, and prints it when it is an error or a warning. */
    method Report(report: Report)
      requires Valid()
      modifies this
      ensures Valid() && reports == old(reports) + [report]
      ensures printed == old(printed) + (if IsPrinted(report.severity) then [Format(report)] else [])
    {
      if report.severity == Error || report.severity == Warning {
        printed := printed + [Format(report)];
      }
      reports := reports + [report];
      assert reports[..|reports| - 1] == old(reports);
    }

    method GetReports() returns (r: seq<Report>)
      ensures r == reports
    {
      return reports;
    }

    /** The number of kept reports whose severity is `severity`. */
    method GetCount(severity: Severity) returns (count: nat)
      ensures count == CountSeverity(reports, severity)
    {
      count := 0;
      for i := 0 to |reports|
        invariant count == CountSeverity(reports[..i], severity)
      {
        assert reports[..i + 1][..i] == reports[..i];
        if reports[i].severity == severity {
          count := count + 1;
        }
      }
      assert reports[..|reports|] == reports;
    }
  }
}
