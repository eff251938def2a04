/** The rule that reports exceptions a method stopped or started declaring. */
module CheckMethodException {
  import opened Model
  import opened Reporting

  /** The entries of `xs`, in order and with repetitions, that do not occur in `ys`. */
  function Absent(xs: seq<string>, ys: seq<string>): (r: seq<string>)
    ensures |r| <= |xs|
    ensures forall e :: e in r <==> e in xs && e !in ys
    decreases |xs|
  {
    if xs == [] then []
    else (if xs[0] in ys then [] else [xs[0]]) + Absent(xs[1..], ys)
  }

  /** A list shares no entry with the list of entries that are absent from it. */
  lemma {:induction false} AbsentFromItself(xs: seq<string>, ys: seq<string>)
    requires forall e :: e in xs ==> e in ys
    ensures Absent(xs, ys) == []
    decreases |xs|
  {
    if xs != [] {
      assert xs[0] in ys;
      AbsentFromItself(xs[1..], ys);
    }
  }

  function NotThrowing(methodName: string, exception: string): Report {
    MessageReport(Error, methodName + " is not throwing " + exception + " anymore.")
  }

  function NowThrowing(methodName: string, exception: string): Report {
    MessageReport(Error, methodName + " is now throwing " + exception + ".")
  }

  /** The rule applies to non-private methods only. */
  predicate Applies(reference: JavaItem) {
    reference.MethodItem? && reference.Visibility() != Private
  }

  /**
   * For a non-private method: one ERROR per reference exception the new method
   * no longer declares, in list order, followed by one ERROR per exception the
   * new method newly declares, in list order. Nothing for any other item.
   */
  function Check(reference: JavaItem, newItem: JavaItem): (findings: seq<Report>)
    requires SameKind(reference, newItem)
    ensures !Applies(reference) ==> findings == []
    ensures Applies(reference) ==>
      var name := reference.meth.name;
      var gone := Absent(reference.meth.exceptions, newItem.meth.exceptions);
      var added := Absent(newItem.meth.exceptions, reference.meth.exceptions);
      && |findings| == |gone| + |added|
      && (forall i :: 0 <= i < |gone| ==> findings[i] == NotThrowing(name, gone[i]))
      && (forall i :: 0 <= i < |added| ==> findings[|gone| + i] == NowThrowing(name, added[i]))
  {
    if Applies(reference) then
      var name := reference.meth.name;
      var gone := Absent(reference.meth.exceptions, newItem.meth.exceptions);
      var added := Absent(newItem.meth.exceptions, reference.meth.exceptions);
      seq(|gone|, i requires 0 <= i < |gone| => NotThrowing(name, gone[i]))
        + seq(|added|, i requires 0 <= i < |added| => NowThrowing(name, added[i]))
    else
      []
  }

  /** Every finding of this rule is an ERROR. */
  lemma AllErrors(reference: JavaItem, newItem: JavaItem)
    requires SameKind(reference, newItem)
    ensures forall f :: f in Check(reference, newItem) ==> f.severity == Error
  {
  }

  /** Two methods that declare the same exceptions, in whatever order, give no finding. */
  lemma SameExceptionsNoFinding(reference: JavaItem, newItem: JavaItem)
    requires reference.MethodItem? && newItem.MethodItem?
    requires forall e :: e in reference.meth.exceptions <==> e in newItem.meth.exceptions
    ensures Check(reference, newItem) == []
  {
    AbsentFromItself(reference.meth.exceptions, newItem.meth.exceptions);
    AbsentFromItself(newItem.meth.exceptions, reference.meth.exceptions);
  }

  /** An exception that only the reference declares is reported as no longer thrown. */
  lemma DroppedExceptionReported(reference: JavaItem, newItem: JavaItem, e: string)
    requires reference.MethodItem? && newItem.MethodItem? && reference.Visibility() != Private
    requires e in reference.meth.exceptions && e !in newItem.meth.exceptions
    ensures NotThrowing(reference.meth.name, e) in Check(reference, newItem)
  {
    var gone := Absent(reference.meth.exceptions, newItem.meth.exceptions);
    assert e in gone;
    var i :| 0 <= i < |gone| && gone[i] == e;
    var findings := Check(reference, newItem);
    assert findings[i] == NotThrowing(reference.meth.name, e);
  }

  /** An exception that only the new method declares is reported as newly thrown. */
  lemma AddedExceptionReported(reference: JavaItem, newItem: JavaItem, e: string)
    requires reference.MethodItem? && newItem.MethodItem? && reference.Visibility() != Private
    requires e in newItem.meth.exceptions && e !in reference.meth.exceptions
    ensures NowThrowing(reference.meth.name, e) in Check(reference, newItem)
  {
    var gone := Absent(reference.meth.exceptions, newItem.meth.exceptions);
    var added := Absent(newItem.meth.exceptions, reference.meth.exceptions);
    assert e in added;
    var i :| 0 <= i < |added| && added[i] == e;
    var findings := Check(reference, newItem);
    assert findings[|gone| + i] == NowThrowing(reference.meth.name, e);
  }
}
