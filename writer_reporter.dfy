/**
 * The reporter that writes one line per finding, severity name first, to a
 * character stream. A missing stream makes every report a no-op.
 */
module WriterReporting {
  import opened Model
  import opened Reporting

  /** A character stream that is only ever appended to. */
  class Writer {
    var text: string

    constructor ()
      ensures text == ""
    {
      text := "";
    }

    method Append(s: string)
      modifies this
      ensures text == old(text) + s
    {
      text := text + s;
    }
  }

  /** The written form: "SEVERITY: source(line): message", or "SEVERITY: message" without a source. */
  function Format(report: Report): (line: string)
    ensures var prefix := SeverityName(report.severity) + ": ";
            |prefix| <= |line| && line[..|prefix|] == prefix
    ensures |report.message| <= |line| && line[|line| - |report.message|..] == report.message
    ensures report.source.None? ==> line == SeverityName(report.severity) + ": " + report.message
  {
    if report.source.Some? then SeverityName(report.severity) + ": " + report.source.value + LineSuffix(report) + ": " + report.message
    else SeverityName(report.severity) + ": " + report.message
  }

  class WriterReporter {
    const writer: Writer?

    constructor (writer: Writer?)
      ensures this.writer == writer
    {
      this.writer := writer;
    }

    /** Appends the formatted report and a newline to the writer; without a writer nothing changes. */
    method Report(report: Report)
      modifies writer
      ensures writer != null ==> writer.text == old(writer.text) + Format(report) + "\n"
    {
      if writer != null {
        writer.Append(Format(report) + "\n");
      }
    }
  }
}
