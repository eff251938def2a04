/**
 * A reporter that only counts the findings of one severity (ERROR unless
 * told otherwise). The findings themselves are not kept; the ghost
 * `reports` records what was reported so that the count can be stated.
 */
module SeverityCounting {
  import opened Model
  import opened Reporting

  class SeverityCountReporter {
    const severity: Severity
    var count: nat
    ghost var reports: seq<Report>

    /** `count` is the number of reports so far that have the configured severity. */
    ghost predicate Valid()
      reads this
    {
      count == CountSeverity(reports, severity)
    }

    /** The default reporter counts errors. */
    constructor ()
      ensures Valid() && severity == Error && count == 0 && reports == []
    {
      severity := Error;
      count := 0;
      reports := [];
    }

    constructor ForSeverity(severity: Severity)
      ensures Valid() && this.severity == severity && count == 0 && reports == []
    {
      this.severity := severity;
      count := 0;
      reports := [];
    }

    /** Counts `report` when it has the configured severity; the count never decreases. */
    method Report(report: Report)
      requires Valid()
      modifies this
      ensures Valid() && reports == old(reports) + [report]
      ensures count == old(count) + (if report.severity == severity then 1 else 0)
      ensures count >= old(count)
    {
      if report.severity == severity {
        count := count + 1;
      }
      CountSeverityAppend(reports, [report], severity);
      assert CountSeverity([report], severity) == if report.severity == severity then 1 else 0 by {
        assert [report][..0] == [];
      }
      reports := reports + [report];
    }

    method GetCount() returns (n: nat)
      requires Valid()
      ensures n == CountSeverity(reports, severity) && n <= |reports|
    {
      CountSeverityPositive(reports, severity);
      return count;
    }

    /** True exactly when some report so far had the configured severity. */
    method HasSeverity() returns (b: bool)
      requires Valid()
      ensures b <==> exists i :: 0 <= i < |reports| && reports[i].severity == severity
    {
      CountSeverityPositive(reports, severity);
      return count > 0;
    }
  }
}
