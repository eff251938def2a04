/** The rule that reports a variable-arity parameter turned into a plain array. */
module CheckMethodVariableArity {
  import opened Wrappers
  import opened Model
  import opened Reporting

  function Message(newItem: JavaItem): string {
    "The parameter of the " + newItem.Name() + " has been changed from variable arity to array"
  }

  /** A protected or public variable-arity method whose new version is not variable-arity. */
  predicate Fires(reference: JavaItem, newItem: JavaItem)
    requires SameKind(reference, newItem)
  {
    && reference.MethodItem?
    && IsMoreVisibleThan(reference.Visibility(), NoScope)
    && reference.meth.variableArity
    && !newItem.meth.variableArity
  }

  /**
   * At most one finding: one ERROR exactly when `Fires`. The finding carries
   * the new item in its reference slot and the reference in its new slot.
   */
  function Check(reference: JavaItem, newItem: JavaItem): (findings: seq<Report>)
    requires SameKind(reference, newItem) && HasSource(newItem)
    ensures |findings| <= 1
    ensures |findings| == 1 <==> Fires(reference, newItem)
    ensures |findings| == 1 ==>
      && findings[0].severity == Error
      && findings[0].message == Message(newItem)
      && findings[0].referenceItem == Some(newItem)
      && findings[0].newItem == Some(reference)
  {
    if Fires(reference, newItem) then
      [NewReport(Error, Message(newItem), newItem, Some(reference))]
    else
      []
  }

  /** Changing an array parameter into a variable-arity one is never reported. */
  lemma ArrayToVarargsSilent(reference: JavaItem, newItem: JavaItem)
    requires reference.MethodItem? && newItem.MethodItem? && HasSource(newItem)
    requires !reference.meth.variableArity
    ensures Check(reference, newItem) == []
  {
  }

  /** Private and package-scope methods are never reported. */
  lemma HiddenMethodsSilent(reference: JavaItem, newItem: JavaItem)
    requires reference.MethodItem? && newItem.MethodItem? && HasSource(newItem)
    requires reference.Visibility() in {Private, NoScope}
    ensures Check(reference, newItem) == []
  {
  }
}
