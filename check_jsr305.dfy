/** The rule that reports a weakened JSR-305 nullness contract on a method. */
module CheckJSR305 {
  import opened Wrappers
  import opened Model
  import opened Reporting

  const NonnullDesc: string := "Ljavax/annotation/Nonnull;"
  const NullableDesc: string := "Ljavax/annotation/Nullable;"

  const NowNullableMessage: string :=
    "The reference method declares the JSR305 Nonnull annotation, but the new method declares to be Nullable."
  const NonnullDroppedMessage: string :=
    "The reference method declares the JSR305 Nonnull annotation, but not the new method."

  /** `method.getAnnotation(desc) != null`. */
  predicate HasAnnotation(m: MethodData, desc: string) {
    desc in m.annotations
  }

  /** The rule applies to non-private methods only. */
  predicate Applies(reference: JavaItem) {
    reference.Visibility() != Private && reference.MethodItem?
  }

  /**
   * At most one ERROR, only for a non-private method declared @Nonnull in the
   * reference: "declares to be Nullable" when the new method is @Nullable,
   * otherwise "but not the new method" when the new method drops @Nonnull.
   */
  function Check(reference: JavaItem, newItem: JavaItem): (findings: seq<Report>)
    requires SameKind(reference, newItem) && HasSource(reference)
    ensures |findings| <= 1
    ensures !Applies(reference) ==> findings == []
    ensures Applies(reference) && !HasAnnotation(reference.meth, NonnullDesc) ==> findings == []
    ensures Applies(reference) && HasAnnotation(reference.meth, NonnullDesc) && HasAnnotation(newItem.meth, NullableDesc) ==>
      findings == [NewReport(Error, NowNullableMessage, reference, Some(newItem))]
    ensures Applies(reference) && HasAnnotation(reference.meth, NonnullDesc)
            && !HasAnnotation(newItem.meth, NullableDesc) && !HasAnnotation(newItem.meth, NonnullDesc) ==>
      findings == [NewReport(Error, NonnullDroppedMessage, reference, Some(newItem))]
    ensures Applies(reference) && HasAnnotation(reference.meth, NonnullDesc)
            && !HasAnnotation(newItem.meth, NullableDesc) && HasAnnotation(newItem.meth, NonnullDesc) ==>
      findings == []
  {
    if Applies(reference) then
      var r := reference.meth;
      var n := newItem.meth;
      if HasAnnotation(r, NonnullDesc) && HasAnnotation(n, NullableDesc) then
        [NewReport(Error, NowNullableMessage, reference, Some(newItem))]
      else if HasAnnotation(r, NonnullDesc) && !HasAnnotation(n, NonnullDesc) then
        [NewReport(Error, NonnullDroppedMessage, reference, Some(newItem))]
      else
        []
    else
      []
  }
}
