/**
 * The rule set the driver applies: each rule is a pure function from a
 * (reference, new) pair of items of the same kind to the findings it reports.
 */
module Rules {
  import opened Model
  import opened Reporting
  import CheckChangeOfScope
  import CheckMethodException
  import CheckMethodVariableArity
  import CheckJSR305

  datatype Rule = ChangeOfScope | MethodException | MethodVariableArity | JSR305

  /**
   * What every rule may assume of its arguments: neither is null (the types
   * say so), both are of the same kind, and both can be cited in a report.
   */
  predicate Pre(reference: JavaItem, newItem: JavaItem) {
    SameKind(reference, newItem) && HasSource(reference) && HasSource(newItem)
  }

  /** `rule.checkBackwardCompatibility(reporter, reference, newItem)`: the findings reported. */
  function Check(rule: Rule, reference: JavaItem, newItem: JavaItem): (findings: seq<Report>)
    requires Pre(reference, newItem)
    ensures rule != ChangeOfScope ==> forall f :: f in findings ==> f.severity == Error
    ensures rule == ChangeOfScope ==> |findings| == 1
  {
    match rule
    case ChangeOfScope => CheckChangeOfScope.Check(reference, newItem)
    case MethodException => CheckMethodException.Check(reference, newItem)
    case MethodVariableArity => CheckMethodVariableArity.Check(reference, newItem)
    case JSR305 => CheckJSR305.Check(reference, newItem)
  }

  /**
   * Comparing an item with itself reports no ERROR and no WARNING under any
   * rule, provided a method is not annotated both @Nonnull and @Nullable.
   */
  lemma SelfComparisonQuiet(rule: Rule, item: JavaItem)
    requires Pre(item, item)
    requires item.MethodItem? ==>
      !(CheckJSR305.HasAnnotation(item.meth, CheckJSR305.NonnullDesc) && CheckJSR305.HasAnnotation(item.meth, CheckJSR305.NullableDesc))
    ensures forall f :: f in Check(rule, item, item) ==> f.severity !in {Error, Warning}
  {
    match rule
    case ChangeOfScope =>
    case MethodException =>
      if CheckMethodException.Applies(item) {
        CheckMethodException.SameExceptionsNoFinding(item, item);
      }
    case MethodVariableArity =>
    case JSR305 =>
  }
}
