/**
 * The class-model builder: a visitor that receives the events of decoding
 * compiled classes one after another and records one ClassData per class
 * name. `clazz` is the class being decoded; member events append to it.
 */
module ClassDumping {
  import opened Wrappers
  import opened Model

  /** Stands for a nested visitor object the decoder could be handed; the builder never hands one out. */
  datatype NestedVisitor = NestedVisitor

  /** Every member of `c` names `c` as its owner. */
  ghost predicate MembersOwnedBy(c: ClassData) {
    && (forall i :: 0 <= i < |c.fields| ==> c.fields[i].owner == Some(c.AsOwner()))
    && (forall i :: 0 <= i < |c.methods| ==> c.methods[i].owner == Some(c.AsOwner()))
    && (forall i :: 0 <= i < |c.innerClasses| ==> c.innerClasses[i].owner == Some(c.AsOwner()))
  }

  /** The class `visit` creates: top-level (no owner), no source yet, no members. */
  function NewClassData(version: int, access: Access, name: string, signature: Option<string>,
                        superName: Option<string>, interfaces: seq<string>): (c: ClassData)
    ensures c.owner.None? && c.name == name && c.superName == superName && c.interfaces == interfaces
    ensures c.fields == [] && c.methods == [] && c.innerClasses == [] && c.source.None?
    ensures MembersOwnedBy(c)
  {
    ClassData(None, access.visibility, name, signature, superName, interfaces, access.isInterface, version, None, [], [], [])
  }

  /**
   * `clazz.setSource(source)`. The members hold a reference to their class,
   * so they see the new file name too: their owner records are renewed.
   */
  function WithSource(c: ClassData, source: Option<string>): (r: ClassData)
    ensures r.source == source && r.name == c.name && r.owner == c.owner
    ensures |r.fields| == |c.fields| && |r.methods| == |c.methods| && |r.innerClasses| == |c.innerClasses|
    ensures r == c.(source := source, fields := r.fields, methods := r.methods, innerClasses := r.innerClasses)
    ensures forall i :: 0 <= i < |c.fields| ==> r.fields[i] == c.fields[i].(owner := Some(r.AsOwner()))
    ensures forall i :: 0 <= i < |c.methods| ==> r.methods[i] == c.methods[i].(owner := Some(r.AsOwner()))
    ensures forall i :: 0 <= i < |c.innerClasses| ==> r.innerClasses[i] == c.innerClasses[i].(owner := Some(r.AsOwner()))
    ensures MembersOwnedBy(r)
  {
    var o := Owner(c.name, source);
    c.(source := source,
       fields := seq(|c.fields|, i requires 0 <= i < |c.fields| => c.fields[i].(owner := Some(o))),
       methods := seq(|c.methods|, i requires 0 <= i < |c.methods| => c.methods[i].(owner := Some(o))),
       innerClasses := seq(|c.innerClasses|, i requires 0 <= i < |c.innerClasses| => c.innerClasses[i].(owner := Some(o))))
  }

  class ClassDumper {
    /** The class being decoded; None between classes. */
    var clazz: Option<ClassData>
    /** The classes decoded so far, by name. */
    var classes: map<string, ClassData>

    /**
     * Each class is filed under its own name, is top-level and owns its
     * members; the current class is the very one filed under its name.
     */
    ghost predicate Valid()
      reads this
    {
      && (forall n :: n in classes ==> classes[n].name == n && classes[n].owner.None? && MembersOwnedBy(classes[n]))
      && (clazz.Some? ==> clazz.value.name in classes && classes[clazz.value.name] == clazz.value)
    }

    constructor ()
      ensures Valid() && clazz.None? && classes == map[]
    {
      clazz := None;
      classes := map[];
    }

    /** Starts a class: it becomes the current class and replaces any class of the same name. */
    method Visit(version: int, access: Access, name: string, signature: Option<string>,
                 superName: Option<string>, interfaces: seq<string>)
      requires Valid()
      modifies this
      ensures Valid()
      ensures clazz == Some(NewClassData(version, access, name, signature, superName, interfaces))
      ensures classes == old(classes)[name := clazz.value]
      ensures classes.Keys == old(classes).Keys + {name}
    {
      clazz := Some(NewClassData(version, access, name, signature, superName, interfaces));
      classes := classes[name := clazz.value];
    }

    /** Annotations on the class are not recorded: no nested visitor is handed out. */
    method VisitAnnotation(desc: string, visible: bool) returns (visitor: Option<NestedVisitor>)
      ensures visitor.None?
    {
      visitor := None;
    }

    /** Ends the current class. */
    method VisitEnd()
      requires Valid()
      modifies this
      ensures Valid() && clazz.None? && classes == old(classes)
    {
      clazz := None;
    }

    /** Appends one field to the current class; the set of names is unchanged. */
    method VisitField(access: Access, name: string, desc: string, signature: Option<string>)
      returns (visitor: Option<NestedVisitor>)
      requires Valid() && clazz.Some?
      modifies this
      ensures Valid() && visitor.None?
      ensures var c := old(clazz.value);
        && clazz == Some(c.(fields := c.fields + [FieldData(Some(c.AsOwner()), access.visibility, name, desc, signature)]))
        && classes == old(classes)[c.name := clazz.value]
      ensures classes.Keys == old(classes).Keys
    {
      var c := clazz.value;
      var field := FieldData(Some(c.AsOwner()), access.visibility, name, desc, signature);
      clazz := Some(c.(fields := c.fields + [field]));
      classes := classes[c.name := clazz.value];
      visitor := None;
    }

    /** Appends one inner-class relation to the current class; the set of names is unchanged. */
    method VisitInnerClass(name: string, outerName: Option<string>, innerName: Option<string>, access: Access)
      requires Valid() && clazz.Some?
      modifies this
      ensures Valid()
      ensures var c := old(clazz.value);
        && clazz == Some(c.(innerClasses := c.innerClasses + [InnerClassData(Some(c.AsOwner()), access.visibility, name, outerName, innerName)]))
        && classes == old(classes)[c.name := clazz.value]
      ensures classes.Keys == old(classes).Keys
    {
      var c := clazz.value;
      var inner := InnerClassData(Some(c.AsOwner()), access.visibility, name, outerName, innerName);
      clazz := Some(c.(innerClasses := c.innerClasses + [inner]));
      classes := classes[c.name := clazz.value];
    }

    /** Appends one method to the current class; the set of names is unchanged. */
    method VisitMethod(access: Access, name: string, descriptor: string, signature: Option<string>, exceptions: seq<string>)
      returns (visitor: Option<NestedVisitor>)
      requires Valid() && clazz.Some?
      modifies this
      ensures Valid() && visitor.None?
      ensures var c := old(clazz.value);
        && clazz == Some(c.(methods := c.methods + [MethodData(Some(c.AsOwner()), access.visibility, name, descriptor,
                                                               signature, exceptions, access.isVarargs, [], 0)]))
        && classes == old(classes)[c.name := clazz.value]
      ensures classes.Keys == old(classes).Keys
    {
      var c := clazz.value;
      var m := MethodData(Some(c.AsOwner()), access.visibility, name, descriptor, signature, exceptions, access.isVarargs, [], 0);
      clazz := Some(c.(methods := c.methods + [m]));
      classes := classes[c.name := clazz.value];
      visitor := None;
    }

    /** Records the source file of the current class only. */
    method VisitSource(source: Option<string>, debug: Option<string>)
      requires Valid() && clazz.Some?
      modifies this
      ensures Valid()
      ensures clazz == Some(WithSource(old(clazz.value), source))
      ensures classes == old(classes)[clazz.value.name := clazz.value]
      ensures forall n :: n in classes && n != clazz.value.name ==> classes[n] == old(classes)[n]
    {
      clazz := Some(WithSource(clazz.value, source));
      classes := classes[clazz.value.name := clazz.value];
    }

    /** A new list holding each recorded class exactly once: one entry per distinct name. */
    method GetClasses() returns (result: seq<ClassData>)
      requires Valid()
      ensures |result| == |classes|
      ensures forall i :: 0 <= i < |result| ==> result[i].name in classes && classes[result[i].name] == result[i]
      ensures forall n :: n in classes ==> classes[n] in result
      ensures forall i, j :: 0 <= i < j < |result| ==> result[i].name != result[j].name
    {
      result := ValuesOf(classes);
    }
  }

  /** `new ArrayList(classes.values())` over a map that files each class under its own name. */
  method ValuesOf(classes: map<string, ClassData>) returns (result: seq<ClassData>)
    requires forall n :: n in classes ==> classes[n].name == n
    ensures |result| == |classes|
    ensures forall i :: 0 <= i < |result| ==> result[i].name in classes && classes[result[i].name] == result[i]
    ensures forall n :: n in classes ==> classes[n] in result
    ensures forall i, j :: 0 <= i < j < |result| ==> result[i].name != result[j].name
  {
    result := [];
    var pending := classes.Keys;
    while pending != {}
      invariant pending <= classes.Keys
      invariant |result| + |pending| == |classes|
      invariant forall i :: 0 <= i < |result| ==> result[i].name in classes.Keys - pending && classes[result[i].name] == result[i]
      invariant forall n :: n in classes.Keys - pending ==> classes[n] in result
      invariant forall i, j :: 0 <= i < j < |result| ==> result[i].name != result[j].name
      decreases pending
    {
      var n :| n in pending;
      result := result + [classes[n]];
      pending := pending - {n};
    }
  }
}
