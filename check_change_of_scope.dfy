/** The rule that grades a change of visibility between a reference item and its new version. */
module CheckChangeOfScope {
  import opened Model
  import opened Reporting

  /** "The visibility of the <name> <type> has been changed from R to N". */
  function ChangedMessage(reference: JavaItem, newItem: JavaItem): string {
    "The visibility of the " + newItem.Name() + " " + newItem.TypeName() + " has been changed from "
      + ScopeName(reference.Visibility()) + " to " + ScopeName(newItem.Visibility())
  }

  /** "The visibility of the <name> <type> has not changed". */
  function UnchangedMessage(newItem: JavaItem): string {
    "The visibility of the " + newItem.Name() + " " + newItem.TypeName() + " has not changed"
  }

  /**
   * Exactly one finding per pair, whatever the kind of item: ERROR when the
   * visibility narrows, INFO when it is unchanged, WARNING when it widens.
   */
  function Check(reference: JavaItem, newItem: JavaItem): (findings: seq<Report>)
    ensures |findings| == 1
    ensures findings[0].severity == Error <==> ScopeValue(newItem.Visibility()) < ScopeValue(reference.Visibility())
    ensures findings[0].severity == Info <==> newItem.Visibility() == reference.Visibility()
    ensures findings[0].severity == Warning <==> ScopeValue(newItem.Visibility()) > ScopeValue(reference.Visibility())
    ensures findings[0].severity != Info ==> findings[0] == MessageReport(findings[0].severity, ChangedMessage(reference, newItem))
    ensures findings[0].severity == Info ==> findings[0] == MessageReport(Info, UnchangedMessage(newItem))
  {
    var rv := ScopeValue(reference.Visibility());
    var nv := ScopeValue(newItem.Visibility());
    if nv < rv then
      [MessageReport(Error, ChangedMessage(reference, newItem))]
    else if nv == rv then
      [MessageReport(Info, UnchangedMessage(newItem))]
    else
      [MessageReport(Warning, ChangedMessage(reference, newItem))]
  }

  /**
   * Swapping reference and new item, when their visibilities differ, turns the
   * ERROR into a WARNING and back: a narrowing is never also a widening.
   */
  lemma SwapExchangesErrorAndWarning(a: JavaItem, b: JavaItem)
    requires a.Visibility() != b.Visibility()
    ensures Check(a, b)[0].severity == Error <==> Check(b, a)[0].severity == Warning
    ensures Check(a, b)[0].severity == Warning <==> Check(b, a)[0].severity == Error
    ensures Check(a, b)[0].severity in {Error, Warning}
  {
  }
}
