/**
 * The build-log reporter: a finding at or above the display threshold goes
 * to the log channel of its severity; the others are dropped. The threshold
 * is fixed when the reporter is built, so the reporter is a value and a
 * report is the log entry it produces, if any.
 */
module MavenLog {
  import opened Wrappers
  import opened Model
  import opened Reporting

  /** The four channels of the build log. */
  datatype Channel = ErrorChannel | WarnChannel | InfoChannel | DebugChannel

  /** One call to the build log: the channel and the text. */
  datatype LogEntry = LogEntry(channel: Channel, text: string)

  /** The channel each severity is logged on. */
  function ChannelFor(s: Severity): Channel {
    match s
    case Error => ErrorChannel
    case Warning => WarnChannel
    case Info => InfoChannel
    case Debug => DebugChannel
  }

  /** Distinct severities go to distinct channels, so each report reaches one channel only. */
  lemma ChannelForInjective(a: Severity, b: Severity)
    ensures ChannelFor(a) == ChannelFor(b) <==> a == b
  {
  }

  /** The logged text: the bare message without a source, else "source(line): message", with no severity. */
  function Format(report: Report): (text: string)
    ensures report.source.None? ==> text == report.message
    ensures report.source.Some? ==> |report.source.value| <= |text| && text[..|report.source.value|] == report.source.value
    ensures |report.message| <= |text| && text[|text| - |report.message|..] == report.message
  {
    if report.source.None? then report.message
    else report.source.value + LineSuffix(report) + ": " + report.message
  }

  datatype LogReporter = LogReporter(display: Severity) {
    /** `report`: the entry written to the build log, or None when the severity is below the threshold. */
    function Report(report: Report): (entry: Option<LogEntry>)
      ensures entry.Some? <==> Ordinal(report.severity) <= Ordinal(display)
      ensures entry.Some? ==> entry.value.channel == ChannelFor(report.severity) && entry.value.text == Format(report)
    {
      if Ordinal(report.severity) <= Ordinal(display) then Some(LogEntry(ChannelFor(report.severity), Format(report)))
      else None
    }
  }

  /** A reporter built without a threshold displays warnings and errors. */
  function Default(): (r: LogReporter)
    ensures r.display == Warning
    ensures forall report: Report :: r.Report(report).Some? <==> report.severity in {Error, Warning}
  {
    LogReporter(Warning)
  }

  /** A lower threshold forwards everything a higher one does, on the same channel and with the same text. */
  lemma ThresholdMonotone(low: Severity, high: Severity, report: Report)
    requires Ordinal(high) <= Ordinal(low)
    ensures LogReporter(high).Report(report).Some? ==> LogReporter(low).Report(report) == LogReporter(high).Report(report)
  {
  }

  /** Errors are always forwarded, and a DEBUG threshold forwards everything. */
  lemma ErrorsAlwaysLogged(display: Severity, report: Report)
    ensures report.severity == Error ==> LogReporter(display).Report(report).Some?
    ensures LogReporter(Debug).Report(report).Some?
  {
  }
}
