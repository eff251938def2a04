# japi-checker compatibility engine, modelled in Dafny

japi-checker compares two builds of a Java library, a *reference* artifact and a *new* one. Each is a jar file or a directory of compiled classes. It reports the changes that break code written against the reference. This project models the engine's core:

- **The driver** (`BCChecker`, module `Checker`). Its argument check, corrected as described under "## Findings", accepts only readable artifacts. It filters class paths through include and exclude patterns. It pairs each reference class with the first new class that is the same. It runs every rule on the pair and then member-level checking. It reports each public class that has disappeared.
- **The class-model builder** (`ClassDumper`, module `ClassDumping`). This is a visitor that turns a stream of class-decoding events into one `ClassData` per class name.
- **The inheritance helpers** (`RuleHelpers`). They walk the superclass chain and gather the methods a class provides, including inherited ones.
- **Four rules**: change of visibility, changed exception lists, variable arity turned into an array, and a weakened JSR-305 nullness annotation. Each rule is a pure function from a pair of items to the findings it reports.
- **The finding record** `Report` and the reporters:
  - a counter of one severity;
  - the command-line reporter, which keeps everything and prints errors and warnings;
  - the build-log reporter, which has a display threshold;
  - the writer reporter, which writes one line per finding.
- **The aggregate read failure** and **the annotation record** with its parameter map.

Each part is modelled in the form of its source:

- Objects whose fields change become classes. `BCChecker`, `ClassDumper`, `SeverityCountReporter`, `ReadClassesException`, `AnnotationData`, `CLIReporter` and `WriterReporter` become classes whose methods state their new state. Their loops become `for`/`while` loops with invariants, proved against specification functions (`Steps`, `ClassMethods`, `Accepted`, `CountSeverity`, `Joined`).
- Pure code becomes functions and lemmas: the rules, the report record, the build-log reporter and the formatting.

Output sinks are modelled as values:

- standard output is the sequence of printed lines;
- the build log is the entry a report produces;
- a writer is a string that is only appended to.

## Model

| member | source | states |
|---|---|---|
| Reporting.NewReport | japi-checker/src/main/java/com/googlecode/japi/checker/Reporter.java:32-38 | The four-argument report stores severity, message and both items unchanged. Its source is the owner's file name when the reference item has an owner, and otherwise the class's own file name. Callers must pass an item with an owner or a class. |
| Reporting.MessageReport | japi-checker/src/main/java/com/googlecode/japi/checker/Reporter.java:40-46 | The two-argument report has no items and no source. |
| Reporting.LineSuffix | japi-checker-cli/src/main/java/com/googlecode/japi/checker/cli/CLIReporter.java:49-54 | The suffix is non-empty exactly when the new item is a method. It is then "(", the decimal line number of that method, then ")". |
| Reporting.CountSeverityAppend | japi-checker-cli/src/main/java/com/googlecode/japi/checker/cli/CLIReporter.java:60-68 | Counting a severity over two report lists adds the counts. |
| Reporting.CountSeverityPositive | japi-checker/src/main/java/com/googlecode/japi/checker/SeverityCountReporter.java:62-67 | A count never exceeds the number of reports. It is positive exactly when some report has the severity. |
| Reporting.CountSeverityPartition | japi-checker-cli/src/main/java/com/googlecode/japi/checker/cli/CLIReporter.java:60-68 | The counts of the four severities add up to the number of reports. |
| CheckChangeOfScope.Check | japi-checker/src/main/java/com/googlecode/japi/checker/rules/CheckChangeOfScope.java:25-37 | It gives exactly one finding for every pair, of any item kind. A narrowed visibility gives ERROR "...has been changed from R to N". Equal visibility gives INFO "...has not changed". A widened visibility gives WARNING. Each severity holds if and only if its case does. |
| CheckChangeOfScope.SwapExchangesErrorAndWarning | japi-checker/src/main/java/com/googlecode/japi/checker/rules/CheckChangeOfScope.java:27-35 | When the visibilities differ, swapping the two items turns ERROR into WARNING and back. |
| CheckMethodException.Absent | japi-checker/src/main/java/com/googlecode/japi/checker/rules/CheckMethodException.java:34-35 | An exception is kept exactly when it is in the first list and not in the second. The result is no longer than the first list. |
| CheckMethodException.AbsentFromItself | japi-checker/src/main/java/com/googlecode/japi/checker/rules/CheckMethodException.java:34-43 | A list whose every entry is in the other list has no absent entries. |
| CheckMethodException.Check | japi-checker/src/main/java/com/googlecode/japi/checker/rules/CheckMethodException.java:29-45 | A non-method or a private method gives nothing. Otherwise there is one "is not throwing E anymore." per dropped exception, in order. Then there is one "is now throwing E." per added exception, in order. The count is the sum of the two groups. |
| CheckMethodException.AllErrors | japi-checker/src/main/java/com/googlecode/japi/checker/rules/CheckMethodException.java:36-41 | Every finding of the rule is an ERROR. |
| CheckMethodException.SameExceptionsNoFinding | japi-checker/src/main/java/com/googlecode/japi/checker/rules/CheckMethodException.java:34-43 | Methods declaring the same exceptions, in any order, give no finding. |
| CheckMethodException.DroppedExceptionReported | japi-checker/src/main/java/com/googlecode/japi/checker/rules/CheckMethodException.java:34-38 | A declared exception missing from the new method is reported as no longer thrown. |
| CheckMethodException.AddedExceptionReported | japi-checker/src/main/java/com/googlecode/japi/checker/rules/CheckMethodException.java:39-43 | An exception newly declared by the new method is reported as now thrown. |
| CheckMethodVariableArity.Check | japi-checker/src/main/java/com/googlecode/japi/checker/rules/CheckMethodVariableArity.java:51-59 | At most one finding. There is one exactly when a protected or public variable-arity method loses its variable arity. The finding is an ERROR with the documented message and holds the two items swapped. |
| CheckMethodVariableArity.ArrayToVarargsSilent | japi-checker/src/main/java/com/googlecode/japi/checker/rules/CheckMethodVariableArity.java:43-55 | Turning an array parameter into a variable-arity one is never reported. |
| CheckMethodVariableArity.HiddenMethodsSilent | japi-checker/src/main/java/com/googlecode/japi/checker/rules/CheckMethodVariableArity.java:52-53 | Private and package-scope methods are never reported. |
| CheckJSR305.Check | japi-checker/src/main/java/com/googlecode/japi/checker/rules/CheckJSR305.java:32-44 | At most one ERROR, and only for a non-private method marked @Nonnull in the reference. The message is "declares to be Nullable" when the new method is @Nullable, and "but not the new method" when it drops @Nonnull. Otherwise there is nothing. |
| Rules.Check | japi-checker/src/main/java/com/googlecode/japi/checker/Rule.java:28-34 | A rule needs two items of the same kind that can be cited. All rules except the visibility rule report only ERRORs. The visibility rule reports exactly once. |
| Rules.SelfComparisonQuiet | japi-checker/src/main/java/com/googlecode/japi/checker/rules/CheckChangeOfScope.java:31-32 | Comparing an item with itself gives no ERROR or WARNING under any rule. The exception is a method carrying both @Nonnull and @Nullable. |
| RuleHelpers.ClassTreeWitness | japi-checker/src/main/java/com/googlecode/japi/checker/RuleHelpers.java:49-60 | A true answer means the name sits at some position, at most the fuel, on the resolved superclass chain. |
| RuleHelpers.ClassTreeFinds | japi-checker/src/main/java/com/googlecode/japi/checker/RuleHelpers.java:49-60 | A name on the chain within the fuel is found. |
| RuleHelpers.ClassTreeIsChainMembership | japi-checker/src/main/java/com/googlecode/japi/checker/RuleHelpers.java:32-60 | The walk is true if and only if the name is on the superclass chain from the top name. A null or unknown name ends the chain. |
| RuleHelpers.DocumentedExample | japi-checker/src/main/java/com/googlecode/japi/checker/RuleHelpers.java:33-40 | For A -> B -> C -> D, B is in A's tree and is not in C's. |
| RuleHelpers.IsClassPartOfClassTree | japi-checker/src/main/java/com/googlecode/japi/checker/RuleHelpers.java:49-60 | A null top-level name answers false. A top-level name equal to the class name answers true. A different top-level name the loader does not know answers false. |
| RuleHelpers.ContainsSame | japi-checker/src/main/java/com/googlecode/japi/checker/RuleHelpers.java:101-108 | True if and only if some entry of the list is the same as the method. |
| RuleHelpers.ContainsSameExtends | japi-checker/src/main/java/com/googlecode/japi/checker/RuleHelpers.java:101-108 | A method that is the same as an entry of a list stays so for any extension of the list. |
| RuleHelpers.MergeProperties | japi-checker/src/main/java/com/googlecode/japi/checker/RuleHelpers.java:73-77 | Merging keeps the gathered list as a prefix. Every appended method comes from the inherited list. Every inherited method is appended or already has a same entry. |
| RuleHelpers.MergeShadowFree | japi-checker/src/main/java/com/googlecode/japi/checker/RuleHelpers.java:73-77 | Merging appends no method that is the same as one gathered before it. |
| RuleHelpers.MergeInterfacesProperties | japi-checker/src/main/java/com/googlecode/japi/checker/RuleHelpers.java:80-91 | Merging the super-interfaces keeps the prefix and appends no method that is the same as an earlier one. |
| RuleHelpers.ClassMethodsShape | japi-checker/src/main/java/com/googlecode/japi/checker/RuleHelpers.java:68-93 | The gathered methods start with the class's own methods, in their order. No later entry is the same as an entry before it. |
| RuleHelpers.UnresolvedInterfacesSkipped | japi-checker/src/main/java/com/googlecode/japi/checker/RuleHelpers.java:82-83 | Interfaces the loader cannot resolve contribute nothing. |
| RuleHelpers.InterfacesOnlyForInterfaces | japi-checker/src/main/java/com/googlecode/japi/checker/RuleHelpers.java:80-91 | A non-interface's super-interfaces are ignored. An interface with no resolvable super-interface gathers what a class would. |
| RuleHelpers.AddMissing | japi-checker/src/main/java/com/googlecode/japi/checker/RuleHelpers.java:73-77 | The loop that appends each inherited method no gathered method is the same as performs exactly `Merge`. |
| RuleHelpers.GetClassMethodRecursive | japi-checker/src/main/java/com/googlecode/japi/checker/RuleHelpers.java:68-93 | The list built in place by the nested loops and recursive calls equals `ClassMethods`. |
| ClassDumping.NewClassData | japi-checker/src/main/java/com/googlecode/japi/checker/ClassDumper.java:43 | A visited class is top-level, has the given name, superclass and interfaces, and has no members and no source. |
| ClassDumping.WithSource | japi-checker/src/main/java/com/googlecode/japi/checker/ClassDumper.java:86 | Setting the source changes only the source. The members' view of their owner follows it. |
| ClassDumping.ValuesOf | japi-checker/src/main/java/com/googlecode/japi/checker/ClassDumper.java:89-91 | Over a map that files each class under its own name, the list holds every class exactly once, one per distinct name, and nothing else. |
| ClassDumping.ClassDumper.constructor | japi-checker/src/main/java/com/googlecode/japi/checker/ClassDumper.java:37-38 | A new builder has no current class and no classes. |
| ClassDumping.ClassDumper.Visit | japi-checker/src/main/java/com/googlecode/japi/checker/ClassDumper.java:40-45 | The new class becomes current and is filed under its name. It replaces any earlier class of that name. The class map stays one class per name. |
| ClassDumping.ClassDumper.VisitAnnotation | japi-checker/src/main/java/com/googlecode/japi/checker/ClassDumper.java:47-49 | No nested visitor is returned. |
| ClassDumping.ClassDumper.VisitEnd | japi-checker/src/main/java/com/googlecode/japi/checker/ClassDumper.java:54-57 | The current class is cleared and the map is unchanged. |
| ClassDumping.ClassDumper.VisitField | japi-checker/src/main/java/com/googlecode/japi/checker/ClassDumper.java:59-64 | Exactly one field, owned by the current class, is appended to it. The set of names is unchanged and no visitor is returned. |
| ClassDumping.ClassDumper.VisitInnerClass | japi-checker/src/main/java/com/googlecode/japi/checker/ClassDumper.java:66-70 | Exactly one inner-class entry is appended to the current class. The set of names is unchanged. |
| ClassDumping.ClassDumper.VisitMethod | japi-checker/src/main/java/com/googlecode/japi/checker/ClassDumper.java:72-77 | Exactly one method, owned by the current class, is appended to it. The set of names is unchanged and no visitor is returned. |
| ClassDumping.ClassDumper.VisitSource | japi-checker/src/main/java/com/googlecode/japi/checker/ClassDumper.java:83-87 | The source is set on the current class only. Every other class is unchanged. |
| ClassDumping.ClassDumper.GetClasses | japi-checker/src/main/java/com/googlecode/japi/checker/ClassDumper.java:89-91 | The list holds every recorded class exactly once, one per distinct name, and nothing else. |
| Checker.RemovedReport | japi-checker/src/main/java/com/googlecode/japi/checker/BCChecker.java:84 | An ERROR with message "Public class <name> has been removed.". It cites the class as reference item and has no new item. Its source is the owner's file name, or the class's own file name when it has no owner. |
| Checker.AsWrittenArgumentError | japi-checker/src/main/java/com/googlecode/japi/checker/BCChecker.java:43-49 | The argument check as written. Its only error is "must be a jar file". |
| Checker.AsWrittenMisjudgesNewArtifact | japi-checker/src/main/java/com/googlecode/japi/checker/BCChecker.java:47 | As written, a jar reference with a directory as new artifact is rejected. A directory reference accepts a ".zip" new artifact. |
| Checker.ArgumentError | japi-checker/src/main/java/com/googlecode/japi/checker/BCChecker.java:43-49 | The corrected check passes if and only if each artifact is a directory or has a name ending ".jar" in any letter case. |
| Checker.ChecksAgreeOnJars | japi-checker/src/main/java/com/googlecode/japi/checker/BCChecker.java:44-48 | The written and corrected checks agree when neither artifact is a directory. |
| Checker.ExcludeWins | japi-checker/src/main/java/com/googlecode/japi/checker/BCChecker.java:147-150 | A matching exclude pattern rejects the path, whatever the includes say. |
| Checker.NoIncludesAcceptsUnexcluded | japi-checker/src/main/java/com/googlecode/japi/checker/BCChecker.java:139-152 | With no includes, a path is accepted if and only if no exclude matches it. |
| Checker.FirstSame | japi-checker/src/main/java/com/googlecode/japi/checker/BCChecker.java:73-74 | Finds the first new class that is the same, or reports that there is none. |
| Checker.RuleSteps | japi-checker/src/main/java/com/googlecode/japi/checker/BCChecker.java:75-77 | Runs each rule once, in list order, on the pair. |
| Checker.StepsSnoc | japi-checker/src/main/java/com/googlecode/japi/checker/BCChecker.java:71-86 | One more reference class adds that class's steps at the end. |
| Checker.MatchedSteps | japi-checker/src/main/java/com/googlecode/japi/checker/BCChecker.java:73-81 | For a class whose first same candidate is at j, the rules run in order on that candidate, then member checking. Later candidates are ignored. |
| Checker.UnmatchedSteps | japi-checker/src/main/java/com/googlecode/japi/checker/BCChecker.java:83-85 | An unmatched class yields the single removal finding if it is public, and nothing otherwise. |
| Checker.MatchedXorRemoved | japi-checker/src/main/java/com/googlecode/japi/checker/BCChecker.java:72-85 | Member checking runs if and only if some new class is the same. A removal is reported if and only if the class is public and unmatched. Never both. |
| Checker.RemovalsCounted | japi-checker/src/main/java/com/googlecode/japi/checker/BCChecker.java:83-85 | The driver reports exactly one removal per public reference class left unmatched. |
| Checker.BCChecker.constructor | japi-checker/src/main/java/com/googlecode/japi/checker/BCChecker.java:43-52 | Stores both artifacts and starts with no patterns. It requires the corrected check `ArgumentError` to pass, as described under "## Findings". |
| Checker.BCChecker.Create | japi-checker/src/main/java/com/googlecode/japi/checker/BCChecker.java:43-52 | Applies the corrected check `ArgumentError` from "## Findings" (the check as written is `AsWrittenArgumentError`). Construction fails with "must be a jar file" exactly when an artifact is neither a directory nor a ".jar" file. Otherwise the checker starts with no patterns. |
| Checker.BCChecker.AddInclude | japi-checker/src/main/java/com/googlecode/japi/checker/BCChecker.java:54-56 | Appends one include pattern and leaves the excludes unchanged. |
| Checker.BCChecker.AddExclude | japi-checker/src/main/java/com/googlecode/japi/checker/BCChecker.java:58-60 | Appends one exclude pattern and leaves the includes unchanged. |
| Checker.BCChecker.ShouldCheck | japi-checker/src/main/java/com/googlecode/japi/checker/BCChecker.java:139-153 | The loops with the flag, the break and the early return decide exactly `Accepted`. |
| Checker.BCChecker.CheckBacwardCompatibility | japi-checker/src/main/java/com/googlecode/japi/checker/BCChecker.java:62-87 | The actions performed are exactly `Steps`. A null rule list behaves as an empty one. |
| Checker.BCChecker.CheckClass | japi-checker/src/main/java/com/googlecode/japi/checker/BCChecker.java:72-85 | For one reference class, the inner loop with its break performs exactly `ClassSteps`. |
| Checker.BCChecker.CheckRules | japi-checker/src/main/java/com/googlecode/japi/checker/BCChecker.java:75-77 | The rule loop performs exactly `RuleSteps`. |
| SeverityCounting.SeverityCountReporter.constructor | japi-checker/src/main/java/com/googlecode/japi/checker/SeverityCountReporter.java:29-34 | The default reporter counts ERROR and starts at 0. |
| SeverityCounting.SeverityCountReporter.ForSeverity | japi-checker/src/main/java/com/googlecode/japi/checker/SeverityCountReporter.java:36-42 | Counts the given severity, starting at 0. |
| SeverityCounting.SeverityCountReporter.Report | japi-checker/src/main/java/com/googlecode/japi/checker/SeverityCountReporter.java:44-52 | The count grows by one exactly when the report has the configured severity. It never decreases and always equals the number of such reports so far. |
| SeverityCounting.SeverityCountReporter.GetCount | japi-checker/src/main/java/com/googlecode/japi/checker/SeverityCountReporter.java:54-60 | Equals the number of reports so far with the configured severity. |
| SeverityCounting.SeverityCountReporter.HasSeverity | japi-checker/src/main/java/com/googlecode/japi/checker/SeverityCountReporter.java:62-67 | True if and only if some report so far had the configured severity. |
| ReadErrors.JoinedAppend | japi-checker/src/main/java/com/googlecode/japi/checker/ReadClassesException.java:29-36 | The message of two lists of causes is the concatenation of their messages. |
| ReadErrors.JoinedEmpty | japi-checker/src/main/java/com/googlecode/japi/checker/ReadClassesException.java:29-36 | The message is "" if and only if there are no causes. Otherwise it ends with a newline. |
| ReadErrors.JoinedSingle | japi-checker/src/main/java/com/googlecode/japi/checker/ReadClassesException.java:31-34 | One cause gives its message followed by a newline. |
| ReadErrors.ReadClassesException.constructor | japi-checker/src/main/java/com/googlecode/japi/checker/ReadClassesException.java:24-27 | A new aggregate has no causes. |
| ReadErrors.ReadClassesException.Add | japi-checker/src/main/java/com/googlecode/japi/checker/ReadClassesException.java:38-40 | Appends the cause at the end. |
| ReadErrors.ReadClassesException.GetMessage | japi-checker/src/main/java/com/googlecode/japi/checker/ReadClassesException.java:29-36 | The StringBuilder loop yields each cause's message plus "\n", in insertion order. |
| ReadErrors.ReadClassesException.ThrowIfNeeded | japi-checker/src/main/java/com/googlecode/japi/checker/ReadClassesException.java:42-46 | Raises the aggregate itself if and only if it holds at least one cause. |
| Annotations.AnnotationData.constructor | japi-checker/src/main/java/com/googlecode/japi/checker/model/AnnotationData.java:28-31 | The descriptor and visibility are the arguments and are constant. There are no parameters. |
| Annotations.AnnotationData.Get | japi-checker/src/main/java/com/googlecode/japi/checker/model/AnnotationData.java:72-75 | Some value exactly for a stored key, and then the stored value. |
| Annotations.AnnotationData.ContainsKey | japi-checker/src/main/java/com/googlecode/japi/checker/model/AnnotationData.java:57-60 | True if and only if `Get` finds a value. |
| Annotations.AnnotationData.ContainsValue | japi-checker/src/main/java/com/googlecode/japi/checker/model/AnnotationData.java:62-65 | True if and only if some stored key maps to the value. |
| Annotations.AnnotationData.KeySet | japi-checker/src/main/java/com/googlecode/japi/checker/model/AnnotationData.java:82-85 | Holds exactly the keys `ContainsKey` accepts. |
| Annotations.AnnotationData.Size | japi-checker/src/main/java/com/googlecode/japi/checker/model/AnnotationData.java:97-100 | The number of keys. |
| Annotations.AnnotationData.IsEmpty | japi-checker/src/main/java/com/googlecode/japi/checker/model/AnnotationData.java:77-80 | True if and only if the size is 0, if and only if no key is present. |
| Annotations.AnnotationData.Put | japi-checker/src/main/java/com/googlecode/japi/checker/model/AnnotationData.java:47-50 | Returns the previous value. Afterwards the key maps to the new value and every other key is unchanged. The size grows by one exactly for a new key. |
| Annotations.AnnotationData.Clear | japi-checker/src/main/java/com/googlecode/japi/checker/model/AnnotationData.java:52-55 | Always fails as unsupported. It modifies nothing. |
| Annotations.AnnotationData.PutAll | japi-checker/src/main/java/com/googlecode/japi/checker/model/AnnotationData.java:87-90 | Always fails as unsupported. It modifies nothing. |
| Annotations.AnnotationData.Remove | japi-checker/src/main/java/com/googlecode/japi/checker/model/AnnotationData.java:92-95 | Always fails as unsupported. It modifies nothing. |
| CommandLine.Format | japi-checker-cli/src/main/java/com/googlecode/japi/checker/cli/CLIReporter.java:42-47 | Without a source the line is the bare message. With one it starts with "SEVERITY: source". It always ends with the message. |
| CommandLine.PrintedLinesCount | japi-checker-cli/src/main/java/com/googlecode/japi/checker/cli/CLIReporter.java:34-40 | One line is printed per ERROR or WARNING and none for the rest. |
| CommandLine.PrintedLinesSource | japi-checker-cli/src/main/java/com/googlecode/japi/checker/cli/CLIReporter.java:35-38 | Every printed line is the format of some error or warning reported. |
| CommandLine.CLIReporter.constructor | japi-checker-cli/src/main/java/com/googlecode/japi/checker/cli/CLIReporter.java:32 | A new reporter has no reports and has printed nothing. |
| CommandLine.CLIReporter.Report | japi-checker-cli/src/main/java/com/googlecode/japi/checker/cli/CLIReporter.java:34-40 | Every report is kept, whatever its severity. Its line is printed if and only if it is an ERROR or a WARNING. |
| CommandLine.CLIReporter.GetReports | japi-checker-cli/src/main/java/com/googlecode/japi/checker/cli/CLIReporter.java:56-58 | Returns the kept reports. |
| CommandLine.CLIReporter.GetCount | japi-checker-cli/src/main/java/com/googlecode/japi/checker/cli/CLIReporter.java:60-68 | The counting loop yields the number of kept reports with the severity. |
| MavenLog.ChannelForInjective | japi-checker-maven-plugin/src/main/java/com/googlecode/japi/checker/maven/plugin/LogReporter.java:40-48 | Distinct severities go to distinct channels, so each forwarded report reaches one channel only. |
| MavenLog.Format | japi-checker-maven-plugin/src/main/java/com/googlecode/japi/checker/maven/plugin/LogReporter.java:52-57 | Without a source the text is the bare message. With one it starts with the source and carries no severity. It always ends with the message. |
| MavenLog.LogReporter.Report | japi-checker-maven-plugin/src/main/java/com/googlecode/japi/checker/maven/plugin/LogReporter.java:38-50 | A report is forwarded if and only if its severity's ordinal is at most the threshold's. It goes on its severity's channel with the formatted text. |
| MavenLog.Default | japi-checker-maven-plugin/src/main/java/com/googlecode/japi/checker/maven/plugin/LogReporter.java:27-36 | The default threshold is WARNING, so exactly errors and warnings are forwarded. |
| MavenLog.ThresholdMonotone | japi-checker-maven-plugin/src/main/java/com/googlecode/japi/checker/maven/plugin/LogReporter.java:39 | A lower threshold forwards everything a higher one does, identically. |
| MavenLog.ErrorsAlwaysLogged | japi-checker-maven-plugin/src/main/java/com/googlecode/japi/checker/maven/plugin/LogReporter.java:39-41 | ERROR is forwarded under any threshold. A DEBUG threshold forwards everything. |
| WriterReporting.Writer.Append | japi-checker/src/main/java/com/googlecode/japi/checker/reporters/WriterReporter.java:37 | The writer's text grows by exactly the appended string. |
| WriterReporting.Format | japi-checker/src/main/java/com/googlecode/japi/checker/reporters/WriterReporter.java:44-50 | The line always starts with "SEVERITY: " and ends with the message. Without a source it is exactly "SEVERITY: message". |
| WriterReporting.WriterReporter.constructor | japi-checker/src/main/java/com/googlecode/japi/checker/reporters/WriterReporter.java:29-31 | Stores the writer, which may be null. |
| WriterReporting.WriterReporter.Report | japi-checker/src/main/java/com/googlecode/japi/checker/reporters/WriterReporter.java:33-42 | With a writer, it appends exactly the formatted line and "\n". With a null writer, nothing changes. |
| ReportFormats.WriterIsSeverityThenLog | japi-checker/src/main/java/com/googlecode/japi/checker/reporters/WriterReporter.java:44-50 | The written line is the build-log text with "SEVERITY: " in front. |
| ReportFormats.CommandLineMatchesWriter | japi-checker-cli/src/main/java/com/googlecode/japi/checker/cli/CLIReporter.java:42-47 | With a source, the printed line equals the written line. Without one, the printed line is the bare message. |
| ReportFormats.DefaultLogForwardsWhatIsPrinted | japi-checker-maven-plugin/src/main/java/com/googlecode/japi/checker/maven/plugin/LogReporter.java:27-39 | The default build-log reporter forwards exactly the reports the command line prints. |

## Left out

- Reading artifacts (`readData`, `readDataFromDir`, `readDataFromJar`, japi-checker/src/main/java/com/googlecode/japi/checker/BCChecker.java:90-137) is left out. It is file, directory and zip I/O plus bytecode decoding by a foreign library. The driver is given the two class lists the readers produce.
- Bytecode decoding is left out. `ClassDumper` is driven by explicit visit events. Access flags arrive already decoded as an `Access` value (visibility, interface, varargs).
- `AntPatternMatcher` matching, `isSame` on classes and on methods, and `ClassDataLoader.fromName` have source that is not part of this model. They are parameters, or a map for the loader.
- Member-level checking (`ClassData.checkBackwardCompatibility`) has source that is not part of this model. The driver records it as a `MemberCheck` step, and rule runs as `RuleCheck` steps. The reporter is not threaded through the driver.
- RuleHelpers.IsClassPartOfClassTree: the source recursion has no guard against cyclic hierarchies. The model bounds it with `fuel` (number of lookups), so a chain longer than the fuel answers false.
- RuleHelpers.ClassMethods: the fuel bound applies here too. At fuel 0 only the class's own methods are gathered.
- `visitAttribute` does nothing and `visitOuterClass` only logs. Neither changes any state, so neither is modelled. The log calls of the builder and the writer reporter are not modelled either.
- ClassDumping.ClassDumper.VisitMethod: a new method has no annotations and line number 0. The `MethodData` constructor is not part of this model. The field constant value passed to `FieldData` is dropped.
- ClassDumping.WithSource: the members' owner is a snapshot (name and file name) rather than a reference to the class object. Renewing it on `setSource` stands for Java's aliasing.
- The `ClassData` getters `getFilename` and `getType` are not part of this model. A class's file name is taken to be its recorded source. An inner-class item's type name is taken to be "inner class".
- `Severity` and `Scope` are not part of this model. The order ERROR, WARNING, INFO, DEBUG is taken from the build-log reporter's branches. PRIVATE < NO_SCOPE < PROTECTED < PUBLIC is taken from the tests. `toString()` and `name()` are both the constant's name.
- The rules report through `report(Level, String)` in two places. This is modelled as the two-argument report (no items, no source).
- SeverityCounting.SeverityCountReporter.Report: the count is unbounded, so Java `int` overflow after 2^31 - 1 reports is not modelled. The same holds for `CLIReporter.getCount`.
- `Lower` lowers ASCII letters only. Locale-dependent lowering by `toLowerCase()` is not modelled.
- WriterReporting.WriterReporter.Report: an `IOException` from the writer is only logged, and the model has no failing writer.
- Annotations.AnnotationData.KeySet: the source returns the live key view of the underlying map (`keySet`, model/AnnotationData.java lines 83-85), through which keys can be removed even though `remove` and `clear` throw, as through `values()` and `entrySet()`; the model returns the keys as a set value, so removal through the view is not captured.
- `AnnotationData.values()` and `entrySet()` return live views of the map and are not modelled. Rejecting null keys and values, as `Hashtable` does, is not modelled because Dafny values are never null.
- Checker.BCChecker.Create: it applies the corrected argument check `ArgumentError`, not the check as written at japi-checker/src/main/java/com/googlecode/japi/checker/BCChecker.java:47. The constructor's precondition is the corrected check too. The check as written is kept as `AsWrittenArgumentError`; see "## Findings".
- CommandLine.CLIReporter.GetReports: it returns the kept reports as a value. The source returns the live list itself, so a caller could change the reporter's reports through it. That aliasing is not modelled.
- Standard output and the Maven `Log` are modelled as sequences of printed lines and as returned log entries.

## Findings

| source | as written | input that shows it | evidently intended | confidence | as-written member | corrected member |
|---|---|---|---|---|---|---|
| japi-checker/src/main/java/com/googlecode/japi/checker/BCChecker.java:47 | The second argument check tests `reference.isDirectory()` before rejecting a new artifact not named ".jar". | Reference `old.jar` (a file) with new artifact `classes` (a directory) is rejected. Reference `classes` (a directory) with new artifact `new.zip` is accepted. | The test should be `newArtifact.isDirectory()`, so that each artifact must be a directory or a jar, as `readData` handles both. | not executed | Checker.AsWrittenMisjudgesNewArtifact | Checker.ArgumentError |
