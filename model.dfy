/**
 * The structural model of compiled classes as the rules and reporters see it:
 * visibility scopes, severities, and the class, field, method and inner-class
 * records (ClassData, FieldData, MethodData, InnerClassData) together with the
 * common item view (JavaItem) that rules are applied to.
 */
module Model {
  import opened Wrappers

  /** The visibility of an item; PRIVATE < NO_SCOPE (package) < PROTECTED < PUBLIC. */
  datatype Scope = Private | NoScope | Protected | Public

  /** The value by which the checker compares two scopes. */
  function ScopeValue(s: Scope): nat {
    match s
    case Private => 0
    case NoScope => 1
    case Protected => 2
    case Public => 3
  }

  /** `a.isMoreVisibleThan(b)`. */
  predicate IsMoreVisibleThan(a: Scope, b: Scope) {
    ScopeValue(a) > ScopeValue(b)
  }

  /** The text a scope prints as. */
  function ScopeName(s: Scope): string {
    match s
    case Private => "PRIVATE"
    case NoScope => "NO_SCOPE"
    case Protected => "PROTECTED"
    case Public => "PUBLIC"
  }

  /** The severity of a finding, most severe first. */
  datatype Severity = Error | Warning | Info | Debug

  /** The enum ordinal: ERROR 0, WARNING 1, INFO 2, DEBUG 3. */
  function Ordinal(s: Severity): nat {
    match s
    case Error => 0
    case Warning => 1
    case Info => 2
    case Debug => 3
  }

  /** The enum constant's name, which is also what it prints as. */
  function SeverityName(s: Severity): string {
    match s
    case Error => "ERROR"
    case Warning => "WARNING"
    case Info => "INFO"
    case Debug => "DEBUG"
  }

  /** The access flags of a class or member, as the item constructors decode them. */
  datatype Access = Access(visibility: Scope, isInterface: bool, isVarargs: bool)

  /** What a member knows of the class that declares it: its name and its file name. */
  datatype Owner = Owner(name: string, filename: Option<string>)

  datatype FieldData = FieldData(
    owner: Option<Owner>,
    visibility: Scope,
    name: string,
    descriptor: string,
    signature: Option<string>)

  datatype MethodData = MethodData(
    owner: Option<Owner>,
    visibility: Scope,
    name: string,
    descriptor: string,
    signature: Option<string>,
    exceptions: seq<string>,
    variableArity: bool,
    annotations: seq<string>,   // descriptors of the annotations on the method
    lineNumber: int)

  datatype InnerClassData = InnerClassData(
    owner: Option<Owner>,
    visibility: Scope,
    name: string,
    outerName: Option<string>,
    innerName: Option<string>)

  datatype ClassData = ClassData(
    owner: Option<Owner>,          // None for a top-level class
    visibility: Scope,
    name: string,
    signature: Option<string>,
    superName: Option<string>,
    interfaces: seq<string>,
    isInterface: bool,
    version: int,
    source: Option<string>,
    fields: seq<FieldData>,
    methods: seq<MethodData>,
    innerClasses: seq<InnerClassData>)
  {
    /** The file name reports cite for this class: its recorded source file. */
    function Filename(): Option<string> {
      source
    }

    /** The owner record its members carry. */
    function AsOwner(): Owner {
      Owner(name, Filename())
    }
  }

  /** Any item a rule can be applied to. */
  datatype JavaItem =
    | ClassItem(cls: ClassData)
    | FieldItem(field: FieldData)
    | MethodItem(meth: MethodData)
    | InnerClassItem(inner: InnerClassData)
  {
    function Name(): string {
      match this
      case ClassItem(c) => c.name
      case FieldItem(f) => f.name
      case MethodItem(m) => m.name
      case InnerClassItem(i) => i.name
    }

    function Visibility(): Scope {
      match this
      case ClassItem(c) => c.visibility
      case FieldItem(f) => f.visibility
      case MethodItem(m) => m.visibility
      case InnerClassItem(i) => i.visibility
    }

    function OwnerOf(): Option<Owner> {
      match this
      case ClassItem(c) => c.owner
      case FieldItem(f) => f.owner
      case MethodItem(m) => m.owner
      case InnerClassItem(i) => i.owner
    }

    /** The kind word messages use (`getType()`). */
    function TypeName(): string {
      match this
      case ClassItem(_) => "class"
      case FieldItem(_) => "field"
      case MethodItem(_) => "method"
      case InnerClassItem(_) => "inner class"
    }
  }

  /** Both items are of the same variant, as the casts in the rules assume. */
  predicate SameKind(a: JavaItem, b: JavaItem) {
    (a.ClassItem? && b.ClassItem?) || (a.FieldItem? && b.FieldItem?) ||
    (a.MethodItem? && b.MethodItem?) || (a.InnerClassItem? && b.InnerClassItem?)
  }

  /** The decimal digit for 0 <= d < 10. */
  function Digit(d: nat): char
    requires d < 10
  {
    "0123456789"[d]
  }

  /** Decimal notation of a natural number, as Java prints an int. */
  function NatToString(n: nat): (s: string)
    ensures |s| > 0
    ensures forall i :: 0 <= i < |s| ==> '0' <= s[i] <= '9'
    decreases n
  {
    if n < 10 then [Digit(n)] else NatToString(n / 10) + [Digit(n % 10)]
  }

  /** Decimal notation of an integer, with a leading '-' when negative. */
  function IntToString(i: int): string {
    if i < 0 then "-" + NatToString(-i) else NatToString(i)
  }
}
