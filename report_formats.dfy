/**
 * How the three reporters' renderings of one finding relate: the writer's
 * line is the log's text with the severity name in front, and the command
 * line prints the writer's line when the finding has a source.
 */
module ReportFormats {
  import opened Model
  import opened Reporting
  import CommandLine
  import MavenLog
  import WriterReporting

  /** The written line is the logged text prefixed with "SEVERITY: ". */
  lemma WriterIsSeverityThenLog(report: Report)
    ensures WriterReporting.Format(report) == SeverityName(report.severity) + ": " + MavenLog.Format(report)
  {
    var prefix := SeverityName(report.severity) + ": ";
    if report.source.Some? {
      var rest := report.source.value + LineSuffix(report) + ": " + report.message;
      assert MavenLog.Format(report) == rest;
      assert WriterReporting.Format(report) == prefix + rest;
    }
  }

  /** With a source the printed and written lines agree; without one only the message is printed. */
  lemma CommandLineMatchesWriter(report: Report)
    ensures report.source.Some? ==> CommandLine.Format(report) == WriterReporting.Format(report)
    ensures report.source.None? ==> CommandLine.Format(report) == MavenLog.Format(report) == report.message
  {
  }

  /** The default build-log reporter forwards exactly the findings the command line prints. */
  lemma DefaultLogForwardsWhatIsPrinted(report: Report)
    ensures MavenLog.Default().Report(report).Some? <==> CommandLine.IsPrinted(report.severity)
  {
  }
}
