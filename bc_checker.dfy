/**
 * The compatibility-checking driver: validates the two artifacts, filters
 * class paths through include and exclude patterns, and pairs each reference
 * class with the first new class that is the same, running every rule on
 * the pair and reporting public classes that have disappeared.
 *
 * Reading the artifacts' bytes is outside this model: the driver is given
 * the two lists of classes the readers produced. The pattern matcher, the
 * class identity test and member-level checking are given as parameters.
 */
module Checker {
  import opened Wrappers
  import opened Model
  import opened Reporting
  import opened Rules

  /** What the driver knows of an artifact on disk. */
  datatype File = File(name: string, isDirectory: bool)

  const JarMessage: string := "must be a jar file"

  /** ASCII lower case. */
  function LowerChar(c: char): char {
    if 'A' <= c <= 'Z' then (c as int - 'A' as int + 'a' as int) as char else c
  }

  function Lower(s: string): (r: string)
    ensures |r| == |s|
  {
    seq(|s|, i requires 0 <= i < |s| => LowerChar(s[i]))
  }

  /** `name.toLowerCase().endsWith(".jar")`. */
  predicate IsJarName(name: string) {
    |name| >= 4 && Lower(name)[|name| - 4..] == ".jar"
  }

  /** An artifact the readers can open: a directory or a jar file. */
  predicate Readable(f: File) {
    f.isDirectory || IsJarName(f.name)
  }

  /**
   * The constructor's argument check as written: the second test looks at
   * whether the REFERENCE is a directory, where the new artifact was meant.
   */
  function AsWrittenArgumentError(reference: File, newArtifact: File): (r: Option<string>)
    ensures r.Some? ==> r.value == JarMessage
  {
    if !reference.isDirectory && !IsJarName(reference.name) then Some(JarMessage)
    else if !reference.isDirectory && !IsJarName(newArtifact.name) then Some(JarMessage)
    else None
  }

  /**
   * As written, a jar reference with a directory as new artifact is
   * rejected, and a directory reference lets any new artifact through.
   */
  lemma AsWrittenMisjudgesNewArtifact()
    ensures AsWrittenArgumentError(File("old.jar", false), File("classes", true)) == Some(JarMessage)
    ensures AsWrittenArgumentError(File("classes", true), File("new.zip", false)) == None
  {
    assert Lower("old.jar")[3..] == ".jar";
    assert Lower("classes")[3..] != ".jar" by {
      assert Lower("classes")[3..][0] == 's';
    }
  }

  /** The constructor's argument check as evidently intended: each artifact must be readable. */
  function ArgumentError(reference: File, newArtifact: File): (r: Option<string>)
    ensures r.None? <==> Readable(reference) && Readable(newArtifact)
    ensures r.Some? ==> r.value == JarMessage
  {
    if !reference.isDirectory && !IsJarName(reference.name) then Some(JarMessage)
    else if !newArtifact.isDirectory && !IsJarName(newArtifact.name) then Some(JarMessage)
    else None
  }

  /** The two checks agree whenever neither artifact is a directory. */
  lemma ChecksAgreeOnJars(reference: File, newArtifact: File)
    requires !reference.isDirectory && !newArtifact.isDirectory
    ensures AsWrittenArgumentError(reference, newArtifact) == ArgumentError(reference, newArtifact)
  {
  }

  /** `inc.matches(path)` for some include, or there are no includes; and no exclude matches. */
  predicate Accepted(includes: seq<string>, excludes: seq<string>, path: string, matches: (string, string) -> bool) {
    && (|includes| == 0 || exists i :: 0 <= i < |includes| && matches(includes[i], path))
    && (forall e :: 0 <= e < |excludes| ==> !matches(excludes[e], path))
  }

  /** An exclude that matches rejects the path, whatever the includes say. */
  lemma ExcludeWins(includes: seq<string>, excludes: seq<string>, path: string, matches: (string, string) -> bool, e: nat)
    requires e < |excludes| && matches(excludes[e], path)
    ensures !Accepted(includes, excludes, path, matches)
  {
  }

  /** With no include patterns, exactly the paths no exclude matches are accepted. */
  lemma NoIncludesAcceptsUnexcluded(excludes: seq<string>, path: string, matches: (string, string) -> bool)
    ensures Accepted([], excludes, path, matches) <==> forall e :: 0 <= e < |excludes| ==> !matches(excludes[e], path)
  {
  }

  /** One action of the driver, in the order it performs them. */
  datatype Step =
    | RuleCheck(rule: Rule, reference: ClassData, newClass: ClassData)          // rule.checkBackwardCompatibility(reporter, reference, newClass)
    | MemberCheck(reference: ClassData, newClass: ClassData, rules: seq<Rule>)   // newClass.checkBackwardCompatibility(reporter, reference, rules)
    | Emit(report: Report)                                                      // reporter.report(report)

  /** The index of the first candidate at or after `from` that is the same as `clazz`. */
  function FirstSame(clazz: ClassData, candidates: seq<ClassData>, same: (ClassData, ClassData) -> bool, from: nat): (k: Option<nat>)
    requires from <= |candidates|
    ensures k.Some? ==> from <= k.value < |candidates| && same(clazz, candidates[k.value])
    ensures k.Some? ==> forall j :: from <= j < k.value ==> !same(clazz, candidates[j])
    ensures k.None? ==> forall j :: from <= j < |candidates| ==> !same(clazz, candidates[j])
    decreases |candidates| - from
  {
    if from == |candidates| then None
    else if same(clazz, candidates[from]) then Some(from)
    else FirstSame(clazz, candidates, same, from + 1)
  }

  /** "Public class <name> has been removed.", an ERROR citing the class. */
  function RemovedReport(clazz: ClassData): (r: Report)
    ensures r.severity == Error && r.message == "Public class " + clazz.name + " has been removed."
    ensures r.referenceItem == Some(ClassItem(clazz)) && r.newItem.None?
    ensures r.source == if clazz.owner.Some? then clazz.owner.value.filename else clazz.source
  {
    NewReport(Error, "Public class " + clazz.name + " has been removed.", ClassItem(clazz), None)
  }

  /** One rule check per rule, in list order, on the pair. */
  function RuleSteps(rules: seq<Rule>, reference: ClassData, newClass: ClassData): (steps: seq<Step>)
    ensures |steps| == |rules|
    ensures forall i :: 0 <= i < |rules| ==> steps[i] == RuleCheck(rules[i], reference, newClass)
  {
    seq(|rules|, i requires 0 <= i < |rules| => RuleCheck(rules[i], reference, newClass))
  }

  /** What the driver does for one reference class. */
  function ClassSteps(clazz: ClassData, newData: seq<ClassData>, rules: seq<Rule>, same: (ClassData, ClassData) -> bool): seq<Step> {
    match FirstSame(clazz, newData, same, 0)
    case Some(k) => RuleSteps(rules, clazz, newData[k]) + [MemberCheck(clazz, newData[k], rules)]
    case None => if clazz.visibility == Public then [Emit(RemovedReport(clazz))] else []
  }

  /** What the driver does for all reference classes, in their order. */
  function Steps(referenceData: seq<ClassData>, newData: seq<ClassData>, rules: seq<Rule>, same: (ClassData, ClassData) -> bool): seq<Step>
    decreases |referenceData|
  {
    if referenceData == [] then []
    else Steps(referenceData[..|referenceData| - 1], newData, rules, same)
         + ClassSteps(referenceData[|referenceData| - 1], newData, rules, same)
  }

  /** Extending the reference list by one class extends the steps by that class's steps. */
  lemma StepsSnoc(referenceData: seq<ClassData>, i: nat, newData: seq<ClassData>, rules: seq<Rule>, same: (ClassData, ClassData) -> bool)
    requires i < |referenceData|
    ensures Steps(referenceData[..i + 1], newData, rules, same)
         == Steps(referenceData[..i], newData, rules, same) + ClassSteps(referenceData[i], newData, rules, same)
  {
    assert referenceData[..i + 1][..i] == referenceData[..i];
  }

  /** Extending the rule list by one rule extends its rule checks by one. */
  lemma RuleStepsSnoc(rules: seq<Rule>, r: nat, reference: ClassData, newClass: ClassData)
    requires r < |rules|
    ensures RuleSteps(rules[..r + 1], reference, newClass) == RuleSteps(rules[..r], reference, newClass) + [RuleCheck(rules[r], reference, newClass)]
  {
  }

  /** The steps for a class whose first same candidate is at `j`. */
  lemma MatchedSteps(clazz: ClassData, newData: seq<ClassData>, rules: seq<Rule>, same: (ClassData, ClassData) -> bool, j: nat)
    requires j < |newData| && same(clazz, newData[j])
    requires forall k :: 0 <= k < j ==> !same(clazz, newData[k])
    ensures ClassSteps(clazz, newData, rules, same) == RuleSteps(rules, clazz, newData[j]) + [MemberCheck(clazz, newData[j], rules)]
  {
  }

  /** The steps for a class that no candidate is the same as. */
  lemma UnmatchedSteps(clazz: ClassData, newData: seq<ClassData>, rules: seq<Rule>, same: (ClassData, ClassData) -> bool)
    requires forall k :: 0 <= k < |newData| ==> !same(clazz, newData[k])
    ensures ClassSteps(clazz, newData, rules, same) == if clazz.visibility == Public then [Emit(RemovedReport(clazz))] else []
  {
  }

  /**
   * A reference class is either matched (its rules and member checking run,
   * and it is never reported removed) or unmatched (nothing runs, and it is
   * reported removed exactly when it is public).
   */
  lemma MatchedXorRemoved(clazz: ClassData, newData: seq<ClassData>, rules: seq<Rule>, same: (ClassData, ClassData) -> bool)
    ensures (exists s :: s in ClassSteps(clazz, newData, rules, same) && s.MemberCheck?)
        <==> (exists k :: 0 <= k < |newData| && same(clazz, newData[k]))
    ensures (exists s :: s in ClassSteps(clazz, newData, rules, same) && s.Emit?)
        <==> clazz.visibility == Public && (forall k :: 0 <= k < |newData| ==> !same(clazz, newData[k]))
    ensures !exists s, t :: s in ClassSteps(clazz, newData, rules, same) && t in ClassSteps(clazz, newData, rules, same)
                            && (s.RuleCheck? || s.MemberCheck?) && t.Emit?
  {
    var steps := ClassSteps(clazz, newData, rules, same);
    match FirstSame(clazz, newData, same, 0)
    case Some(k) =>
      assert steps[|steps| - 1].MemberCheck?;
      forall t | t in steps ensures !t.Emit? {
        var i :| 0 <= i < |steps| && steps[i] == t;
        if i < |rules| {
          assert t == RuleCheck(rules[i], clazz, newData[k]);
        }
      }
    case None =>
      if clazz.visibility == Public {
        assert steps[0].Emit?;
      }
  }

  /** The number of removal findings among `steps`. */
  function EmitCount(steps: seq<Step>): nat
    decreases |steps|
  {
    if steps == [] then 0
    else EmitCount(steps[..|steps| - 1]) + (if steps[|steps| - 1].Emit? then 1 else 0)
  }

  lemma {:induction false} EmitCountAppend(a: seq<Step>, b: seq<Step>)
    ensures EmitCount(a + b) == EmitCount(a) + EmitCount(b)
    decreases |b|
  {
    if b == [] {
      assert a + b == a;
    } else {
      var b' := b[..|b| - 1];
      assert (a + b)[..|a + b| - 1] == a + b';
      EmitCountAppend(a, b');
    }
  }

  lemma {:induction false} RuleStepsEmitNothing(rules: seq<Rule>, reference: ClassData, newClass: ClassData)
    ensures EmitCount(RuleSteps(rules, reference, newClass)) == 0
    decreases |rules|
  {
    if rules != [] {
      var init := rules[..|rules| - 1];
      assert RuleSteps(rules, reference, newClass)[..|rules| - 1] == RuleSteps(init, reference, newClass);
      RuleStepsEmitNothing(init, reference, newClass);
    }
  }

  /** The number of public reference classes that no new class is the same as. */
  function RemovedCount(referenceData: seq<ClassData>, newData: seq<ClassData>, same: (ClassData, ClassData) -> bool): nat
    decreases |referenceData|
  {
    if referenceData == [] then 0
    else
      var clazz := referenceData[|referenceData| - 1];
      RemovedCount(referenceData[..|referenceData| - 1], newData, same)
        + (if clazz.visibility == Public && FirstSame(clazz, newData, same, 0).None? then 1 else 0)
  }

  /** The driver reports one removal per public reference class left unmatched, and no other. */
  lemma {:induction false} RemovalsCounted(referenceData: seq<ClassData>, newData: seq<ClassData>, rules: seq<Rule>,
                                           same: (ClassData, ClassData) -> bool)
    ensures EmitCount(Steps(referenceData, newData, rules, same)) == RemovedCount(referenceData, newData, same)
    decreases |referenceData|
  {
    if referenceData != [] {
      var init := referenceData[..|referenceData| - 1];
      var clazz := referenceData[|referenceData| - 1];
      RemovalsCounted(init, newData, rules, same);
      EmitCountAppend(Steps(init, newData, rules, same), ClassSteps(clazz, newData, rules, same));
      match FirstSame(clazz, newData, same, 0)
      case Some(k) =>
        RuleStepsEmitNothing(rules, clazz, newData[k]);
        EmitCountAppend(RuleSteps(rules, clazz, newData[k]), [MemberCheck(clazz, newData[k], rules)]);
        assert EmitCount([MemberCheck(clazz, newData[k], rules)]) == 0;
      case None =>
        if clazz.visibility == Public {
          assert EmitCount([Emit(RemovedReport(clazz))]) == 1;
        }
    }
  }

  class BCChecker {
    const reference: File
    const newArtifact: File
    var includes: seq<string>
    var excludes: seq<string>

    constructor (reference: File, newArtifact: File)
      requires ArgumentError(reference, newArtifact).None?
      ensures this.reference == reference && this.newArtifact == newArtifact
      ensures includes == [] && excludes == []
    {
      this.reference := reference;
      this.newArtifact := newArtifact;
      includes := [];
      excludes := [];
    }

    /** `new BCChecker(reference, newArtifact)`, failing with "must be a jar file" on an unreadable artifact. */
    static method Create(reference: File, newArtifact: File) returns (r: Result<BCChecker, string>)
      ensures r.Failure? <==> ArgumentError(reference, newArtifact).Some?
      ensures r.Failure? ==> r.error == JarMessage
      ensures r.Success? ==> fresh(r.value) && r.value.reference == reference && r.value.newArtifact == newArtifact
                             && r.value.includes == [] && r.value.excludes == []
    {
      var error := ArgumentError(reference, newArtifact);
      if error.Some? {
        return Failure(error.value);
      }
      var checker := new BCChecker(reference, newArtifact);
      return Success(checker);
    }

    method AddInclude(pattern: string)
      modifies this
      ensures includes == old(includes) + [pattern] && excludes == old(excludes)
    {
      includes := includes + [pattern];
    }

    method AddExclude(pattern: string)
      modifies this
      ensures excludes == old(excludes) + [pattern] && includes == old(includes)
    {
      excludes := excludes + [pattern];
    }

    /** `shouldCheck(subpath)`: some include matches (or there are none), and no exclude matches. */
    method ShouldCheck(subpath: string, matches: (string, string) -> bool) returns (r: bool)
      ensures r == Accepted(includes, excludes, subpath, matches)
    {
      var included := |includes| == 0;
      for i := 0 to |includes|
        invariant included <==> |includes| == 0 || exists k :: 0 <= k < i && matches(includes[k], subpath)
      {
        if matches(includes[i], subpath) {
          included := true;
          break;
        }
      }
      for e := 0 to |excludes|
        invariant forall k :: 0 <= k < e ==> !matches(excludes[k], subpath)
      {
        if matches(excludes[e], subpath) {
          return false;
        }
      }
      return included;
    }

    /**
     * `checkBacwardCompatibility(reporter, rules)` on the lists the readers
     * produced: for each reference class, the first same new class gets every
     * rule, in order, and then member checking; an unmatched public class is
     * reported removed. A null rule list acts as an empty one.
     */
    method CheckBacwardCompatibility(referenceData: seq<ClassData>, newData: seq<ClassData>,
                                     rules: Option<seq<Rule>>, same: (ClassData, ClassData) -> bool)
      returns (steps: seq<Step>)
      ensures rules.None? ==> steps == Steps(referenceData, newData, [], same)
      ensures rules.Some? ==> steps == Steps(referenceData, newData, rules.value, same)
    {
      var ruleList := if rules.None? then [] else rules.value;
      steps := [];
      for i := 0 to |referenceData|
        invariant steps == Steps(referenceData[..i], newData, ruleList, same)
      {
        StepsSnoc(referenceData, i, newData, ruleList, same);
        var classSteps := CheckClass(referenceData[i], newData, ruleList, same);
        steps := steps + classSteps;
      }
      assert referenceData[..|referenceData|] == referenceData;
    }

    /** The body of the outer loop of `checkBacwardCompatibility`, for one reference class. */
    method CheckClass(clazz: ClassData, newData: seq<ClassData>, ruleList: seq<Rule>, same: (ClassData, ClassData) -> bool)
      returns (steps: seq<Step>)
      ensures steps == ClassSteps(clazz, newData, ruleList, same)
    {
      for j := 0 to |newData|
        invariant forall k :: 0 <= k < j ==> !same(clazz, newData[k])
      {
        if same(clazz, newData[j]) {
          MatchedSteps(clazz, newData, ruleList, same, j);
          steps := CheckRules(ruleList, clazz, newData[j]);
          steps := steps + [MemberCheck(clazz, newData[j], ruleList)];
          return;
        }
      }
      UnmatchedSteps(clazz, newData, ruleList, same);
      steps := if clazz.visibility == Public then [Emit(RemovedReport(clazz))] else [];
    }

    /** Every rule, in order, on a matched pair of classes. */
    method CheckRules(ruleList: seq<Rule>, clazz: ClassData, newClass: ClassData) returns (steps: seq<Step>)
      ensures steps == RuleSteps(ruleList, clazz, newClass)
    {
      steps := [];
      for r := 0 to |ruleList|
        invariant steps == RuleSteps(ruleList[..r], clazz, newClass)
      {
        RuleStepsSnoc(ruleList, r, clazz, newClass);
        steps := steps + [RuleCheck(ruleList[r], clazz, newClass)];
      }
      assert ruleList[..|ruleList|] == ruleList;
    }
  }
}
