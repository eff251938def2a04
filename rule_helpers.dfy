/**
 * Inheritance helpers for rules: walking a class's superclass chain through a
 * name-to-class lookup, and gathering the methods a class provides, its own
 * first and then the inherited ones it does not already have.
 *
 * The lookup has no guard against cyclic hierarchies, so the recursion here
 * is bounded by `fuel`: the number of lookups one walk may make.
 */
module RuleHelpers {
  import opened Wrappers
  import opened Model

  /** The classes a loader has read, by name (`ClassDataLoader.fromName`). */
  type Loader = map<string, ClassData>

  /** `loader.fromName(name)`: nothing for a null or unknown name. */
  function FromName(loader: Loader, name: Option<string>): Option<ClassData> {
    if name.Some? && name.value in loader then Some(loader[name.value]) else None
  }

  /** The k-th name on the superclass chain that starts at `top`, as far as the loader resolves it. */
  function Ancestor(loader: Loader, top: Option<string>, k: nat): Option<string>
    decreases k
  {
    if k == 0 then top
    else match FromName(loader, top)
      case Some(c) => Ancestor(loader, c.superName, k - 1)
      case None => None
  }

  /** `isClassPartOfClassTree(loader, classname, topLevelClassname)`, making at most `fuel` lookups. */
  function IsClassPartOfClassTree(loader: Loader, classname: string, top: Option<string>, fuel: nat): (r: bool)
    ensures top.None? ==> !r
    ensures top == Some(classname) ==> r
    ensures top.Some? && top.value != classname && top.value !in loader ==> !r
    decreases fuel
  {
    if top.None? then false
    else if classname == top.value then true
    else if fuel == 0 then false
    else match FromName(loader, top)
      case Some(superClass) => IsClassPartOfClassTree(loader, classname, superClass.superName, fuel - 1)
      case None => false
  }

  /** A true answer comes with the position on the chain where `classname` was found. */
  lemma {:induction false} ClassTreeWitness(loader: Loader, classname: string, top: Option<string>, fuel: nat) returns (k: nat)
    requires IsClassPartOfClassTree(loader, classname, top, fuel)
    ensures k <= fuel && Ancestor(loader, top, k) == Some(classname)
    decreases fuel
  {
    if classname == top.value {
      k := 0;
    } else {
      var superClass := FromName(loader, top).value;
      var j := ClassTreeWitness(loader, classname, superClass.superName, fuel - 1);
      k := j + 1;
    }
  }

  /** A name within the first `fuel + 1` positions of the chain is found by the walk. */
  lemma {:induction false} ClassTreeFinds(loader: Loader, classname: string, top: Option<string>, fuel: nat, k: nat)
    requires k <= fuel && Ancestor(loader, top, k) == Some(classname)
    ensures IsClassPartOfClassTree(loader, classname, top, fuel)
    decreases k
  {
    if k > 0 && classname != top.value {
      var superClass := FromName(loader, top).value;
      ClassTreeFinds(loader, classname, superClass.superName, fuel - 1, k - 1);
    }
  }

  /**
   * The walk answers true exactly when `classname` is one of the first
   * `fuel + 1` names on the superclass chain from `top`; a null start or a
   * name the loader does not know ends the chain and yields false.
   */
  lemma ClassTreeIsChainMembership(loader: Loader, classname: string, top: Option<string>, fuel: nat)
    ensures IsClassPartOfClassTree(loader, classname, top, fuel)
        <==> exists k: nat :: k <= fuel && Ancestor(loader, top, k) == Some(classname)
  {
    if IsClassPartOfClassTree(loader, classname, top, fuel) {
      var k := ClassTreeWitness(loader, classname, top, fuel);
    }
    if exists k: nat :: k <= fuel && Ancestor(loader, top, k) == Some(classname) {
      var k: nat :| k <= fuel && Ancestor(loader, top, k) == Some(classname);
      ClassTreeFinds(loader, classname, top, fuel, k);
    }
  }

  /** The chain A -> B -> C -> D of the documentation: B is in A's tree, B is not in C's. */
  lemma DocumentedExample(fuel: nat)
    requires fuel >= 1
    ensures var loader := map[
        "A" := ChainClass("A", Some("B")), "B" := ChainClass("B", Some("C")),
        "C" := ChainClass("C", Some("D")), "D" := ChainClass("D", None)];
      && IsClassPartOfClassTree(loader, "B", Some("A"), fuel)
      && !IsClassPartOfClassTree(loader, "B", Some("C"), fuel)
  {
    var loader := map[
        "A" := ChainClass("A", Some("B")), "B" := ChainClass("B", Some("C")),
        "C" := ChainClass("C", Some("D")), "D" := ChainClass("D", None)];
    assert "A" != "B" && "C" != "B" && "D" != "B";
    if fuel >= 2 {
      assert !IsClassPartOfClassTree(loader, "B", None, fuel - 2);
    }
  }

  /** A public class with the given name and superclass and no members. */
  function ChainClass(name: string, superName: Option<string>): ClassData {
    ClassData(None, Public, name, None, superName, [], false, 0, None, [], [], [])
  }

  /** `containsSame(methods, method)`: some entry of `methods` is the same as `m`. */
  function ContainsSame(methods: seq<MethodData>, m: MethodData, same: (MethodData, MethodData) -> bool): (r: bool)
    ensures r <==> exists i :: 0 <= i < |methods| && same(m, methods[i])
    decreases |methods|
  {
    if methods == [] then false
    else if same(m, methods[0]) then true
    else ContainsSame(methods[1..], m, same)
  }

  /** Appends, in order, each entry of `inherited` that is not the same as one already gathered. */
  function Merge(result: seq<MethodData>, inherited: seq<MethodData>, same: (MethodData, MethodData) -> bool): seq<MethodData>
    decreases |inherited|
  {
    if inherited == [] then result
    else
      var gathered := Merge(result, inherited[..|inherited| - 1], same);
      var m := inherited[|inherited| - 1];
      if ContainsSame(gathered, m, same) then gathered else gathered + [m]
  }

  /**
   * The methods a class provides (`getClassMethodRecursive`): its own, then
   * those of its superclass chain, then, for an interface only, those of its
   * super-interfaces that the loader resolves; each later method is kept only
   * if no method gathered before it is the same.
   */
  function ClassMethods(loader: Loader, clazz: ClassData, same: (MethodData, MethodData) -> bool, fuel: nat): seq<MethodData>
    decreases fuel, 0, 0
  {
    if fuel == 0 then clazz.methods
    else
      var withSuper := match FromName(loader, clazz.superName)
        case Some(superClass) => Merge(clazz.methods, ClassMethods(loader, superClass, same, fuel - 1), same)
        case None => clazz.methods;
      if clazz.isInterface then MergeInterfaces(loader, withSuper, clazz.interfaces, same, fuel - 1) else withSuper
  }

  /** Merges, interface by interface in order, the methods of each resolvable interface in `names`. */
  function MergeInterfaces(loader: Loader, result: seq<MethodData>, names: seq<string>,
                           same: (MethodData, MethodData) -> bool, fuel: nat): seq<MethodData>
    decreases fuel, 1, |names|
  {
    if names == [] then result
    else
      var gathered := MergeInterfaces(loader, result, names[..|names| - 1], same, fuel);
      match FromName(loader, Some(names[|names| - 1]))
      case Some(iface) => Merge(gathered, ClassMethods(loader, iface, same, fuel), same)
      case None => gathered
  }

  /** From position `from` on, no method is the same as one gathered before it. */
  ghost predicate ShadowFree(methods: seq<MethodData>, from: nat, same: (MethodData, MethodData) -> bool) {
    forall i :: from <= i < |methods| ==> !ContainsSame(methods[..i], methods[i], same)
  }

  /** A method that is the same as one entry of a list is the same as an entry of any extension of it. */
  lemma ContainsSameExtends(a: seq<MethodData>, b: seq<MethodData>, m: MethodData, same: (MethodData, MethodData) -> bool)
    requires a <= b && ContainsSame(a, m, same)
    ensures ContainsSame(b, m, same)
  {
    var j :| 0 <= j < |a| && same(m, a[j]);
    assert b[j] == a[j];
  }

  /**
   * Merging keeps what was gathered as a prefix, appends only inherited
   * methods, and leaves every inherited method present or shadowed by a
   * method that is the same.
   */
  lemma {:induction false} MergeProperties(result: seq<MethodData>, inherited: seq<MethodData>, same: (MethodData, MethodData) -> bool)
    ensures var merged := Merge(result, inherited, same);
      && result <= merged
      && (forall i :: |result| <= i < |merged| ==> merged[i] in inherited)
      && (forall m :: m in inherited ==> m in merged || ContainsSame(merged, m, same))
    decreases |inherited|
  {
    if inherited != [] {
      var init := inherited[..|inherited| - 1];
      var last := inherited[|inherited| - 1];
      MergeProperties(result, init, same);
      var gathered := Merge(result, init, same);
      var merged := Merge(result, inherited, same);
      assert gathered <= merged;
      forall m | m in inherited ensures m in merged || ContainsSame(merged, m, same) {
        if m in init {
          if ContainsSame(gathered, m, same) {
            ContainsSameExtends(gathered, merged, m, same);
          } else {
            assert m in gathered;
          }
        } else {
          assert m == last;
        }
      }
    }
  }

  /** Merging appends a method only when nothing gathered before it is the same. */
  lemma {:induction false} MergeShadowFree(result: seq<MethodData>, inherited: seq<MethodData>, same: (MethodData, MethodData) -> bool, from: nat)
    requires from <= |result| && ShadowFree(result, from, same)
    ensures ShadowFree(Merge(result, inherited, same), from, same)
    decreases |inherited|
  {
    if inherited != [] {
      var init := inherited[..|inherited| - 1];
      MergeShadowFree(result, init, same, from);
      MergeProperties(result, init, same);
      var gathered := Merge(result, init, same);
      var merged := Merge(result, inherited, same);
      if merged != gathered {
        forall i | from <= i < |merged| ensures !ContainsSame(merged[..i], merged[i], same) {
          if i < |gathered| {
            assert merged[..i] == gathered[..i];
          } else {
            assert merged[..i] == gathered;
          }
        }
      }
    }
  }

  /** Merging the methods of several interfaces keeps the prefix and the shadowing discipline. */
  lemma {:induction false} MergeInterfacesProperties(loader: Loader, result: seq<MethodData>, names: seq<string>,
                                                     same: (MethodData, MethodData) -> bool, fuel: nat, from: nat)
    requires from <= |result| && ShadowFree(result, from, same)
    ensures result <= MergeInterfaces(loader, result, names, same, fuel)
    ensures ShadowFree(MergeInterfaces(loader, result, names, same, fuel), from, same)
    decreases |names|
  {
    if names != [] {
      var init := names[..|names| - 1];
      MergeInterfacesProperties(loader, result, init, same, fuel, from);
      var gathered := MergeInterfaces(loader, result, init, same, fuel);
      match FromName(loader, Some(names[|names| - 1]))
      case Some(iface) =>
        var inherited := ClassMethods(loader, iface, same, fuel);
        MergeProperties(gathered, inherited, same);
        MergeShadowFree(gathered, inherited, same, from);
      case None =>
    }
  }

  /**
   * The gathered methods start with the class's own methods, in their order,
   * and every later entry is a method that nothing before it is the same as.
   */
  lemma ClassMethodsShape(loader: Loader, clazz: ClassData, same: (MethodData, MethodData) -> bool, fuel: nat)
    ensures clazz.methods <= ClassMethods(loader, clazz, same, fuel)
    ensures ShadowFree(ClassMethods(loader, clazz, same, fuel), |clazz.methods|, same)
  {
    var own := clazz.methods;
    if fuel > 0 {
      var withSuper := match FromName(loader, clazz.superName)
        case Some(superClass) => Merge(own, ClassMethods(loader, superClass, same, fuel - 1), same)
        case None => own;
      var superClass := FromName(loader, clazz.superName);
      if superClass.Some? {
        MergeProperties(own, ClassMethods(loader, superClass.value, same, fuel - 1), same);
        MergeShadowFree(own, ClassMethods(loader, superClass.value, same, fuel - 1), same, |own|);
      }
      if clazz.isInterface {
        MergeInterfacesProperties(loader, withSuper, clazz.interfaces, same, fuel - 1, |own|);
      }
    }
  }

  /** Interfaces the loader cannot resolve contribute nothing. */
  lemma {:induction false} UnresolvedInterfacesSkipped(loader: Loader, result: seq<MethodData>, names: seq<string>,
                                                       same: (MethodData, MethodData) -> bool, fuel: nat)
    requires forall n :: n in names ==> n !in loader
    ensures MergeInterfaces(loader, result, names, same, fuel) == result
    decreases |names|
  {
    if names != [] {
      assert names[|names| - 1] in names;
      UnresolvedInterfacesSkipped(loader, result, names[..|names| - 1], same, fuel);
    }
  }

  /**
   * Super-interfaces are merged only for an interface, and an interface none
   * of whose super-interfaces resolves gathers what a class would.
   */
  lemma InterfacesOnlyForInterfaces(loader: Loader, clazz: ClassData, same: (MethodData, MethodData) -> bool, fuel: nat)
    ensures !clazz.isInterface ==>
      ClassMethods(loader, clazz, same, fuel) == ClassMethods(loader, clazz.(interfaces := []), same, fuel)
    ensures (forall n :: n in clazz.interfaces ==> n !in loader) ==>
      ClassMethods(loader, clazz, same, fuel) == ClassMethods(loader, clazz.(isInterface := false), same, fuel)
  {
    if fuel > 0 && forall n :: n in clazz.interfaces ==> n !in loader {
      var withSuper := match FromName(loader, clazz.superName)
        case Some(superClass) => Merge(clazz.methods, ClassMethods(loader, superClass, same, fuel - 1), same)
        case None => clazz.methods;
      UnresolvedInterfacesSkipped(loader, withSuper, clazz.interfaces, same, fuel - 1);
    }
  }

  /** The loop `for (method : inherited) if (!containsSame(result, method)) result.add(method)`. */
  method AddMissing(result: seq<MethodData>, inherited: seq<MethodData>, same: (MethodData, MethodData) -> bool)
    returns (merged: seq<MethodData>)
    ensures merged == Merge(result, inherited, same)
  {
    merged := result;
    for i := 0 to |inherited|
      invariant merged == Merge(result, inherited[..i], same)
    {
      assert inherited[..i + 1][..i] == inherited[..i];
      if !ContainsSame(merged, inherited[i], same) {
        merged := merged + [inherited[i]];
      }
    }
    assert inherited[..|inherited|] == inherited;
  }

  /**
   * `getClassMethodRecursive(clazz)`: builds the list in place, first the
   * class's own methods, then each method of the superclass's list that is
   * not already present, then, for an interface, likewise for each
   * super-interface the loader resolves.
   */
  method GetClassMethodRecursive(loader: Loader, clazz: ClassData, same: (MethodData, MethodData) -> bool, fuel: nat)
    returns (result: seq<MethodData>)
    ensures result == ClassMethods(loader, clazz, same, fuel)
    decreases fuel
  {
    result := clazz.methods;
    if fuel == 0 {
      return;
    }
    var superClass := FromName(loader, clazz.superName);
    if superClass.Some? {
      var inherited := GetClassMethodRecursive(loader, superClass.value, same, fuel - 1);
      result := AddMissing(result, inherited, same);
    }
    if clazz.isInterface {
      ghost var withSuper := result;
      for j := 0 to |clazz.interfaces|
        invariant result == MergeInterfaces(loader, withSuper, clazz.interfaces[..j], same, fuel - 1)
      {
        assert clazz.interfaces[..j + 1][..j] == clazz.interfaces[..j];
        var iface := FromName(loader, Some(clazz.interfaces[j]));
        if iface.Some? {
          var inherited := GetClassMethodRecursive(loader, iface.value, same, fuel - 1);
          result := AddMissing(result, inherited, same);
        }
      }
      assert clazz.interfaces[..|clazz.interfaces|] == clazz.interfaces;
    }
  }
}
