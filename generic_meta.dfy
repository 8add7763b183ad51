/**
 * The meta model descriptor of the generic database plugin: it binds an
 * identifier, a list of driver classes and a table of per-object-kind meta
 * objects to a meta model implementation class, which it instantiates lazily
 * and caches.
 *
 * Class loading is not modelled: resolving the descriptor's `ObjectType` to a
 * class is the parameter `resolve`, and whether that class's no-argument
 * constructor succeeds is the parameter `instantiates`. The meta object that
 * a child element becomes is keyed by the parameter `typeOf`, which stands
 * for `GenericMetaObject.getType()`.
 */
module GenericMeta {
  import opened Wrappers
  import opened Configuration
  import JavaSplit

  const AttrId := "id"
  const TagObject := "object"
  const AttrDriverClass := "driverClass"
  const AttrClass := "class"

  /** The fully qualified name of the base meta model class. */
  const GenericMetaModelClassName := "org.jkiss.dbeaver.ext.generic.model.meta.GenericMetaModel"

  /** A reference by name to an implementation class; the name is absent when the attribute was. */
  datatype ObjectType = ObjectType(implName: Option<string>)

  /** A loaded class that the meta model can be instantiated from. */
  datatype ImplClass = ImplClass(name: string)

  /** The meta object built from one `object` child element, keyed by its type. */
  datatype GenericMetaObject = GenericMetaObject(objectType: string, config: ConfigElement)

  /** Why `getInstance` failed. */
  datatype InstanceError =
    | ClassNotResolved(implName: Option<string>)
    | InstantiationFailed(implClass: ImplClass)

  /** The meta object a child element becomes. */
  function NewMetaObject(child: ConfigElement, typeOf: ConfigElement -> string): GenericMetaObject
  {
    GenericMetaObject(typeOf(child), child)
  }

  /** The meta objects of the `object` children, in document order. */
  function MetaObjects(children: seq<ConfigElement>, typeOf: ConfigElement -> string): (r: seq<GenericMetaObject>)
    ensures |r| == |children|
    ensures forall i :: 0 <= i < |r| ==> r[i] == NewMetaObject(children[i], typeOf)
  {
    seq(|children|, i requires 0 <= i < |children| => NewMetaObject(children[i], typeOf))
  }

  /**
   * The table obtained by putting each meta object, in order, under its own
   * type: a later object with the same type replaces an earlier one.
   */
  function ObjectTable(objs: seq<GenericMetaObject>): (t: map<string, GenericMetaObject>)
    ensures forall k :: k in t ==> t[k].objectType == k && t[k] in objs
  {
    if objs == [] then map[]
    else
      var last := objs[|objs| - 1];
      ObjectTable(objs[..|objs| - 1])[last.objectType := last]
  }

  /** The table's keys are exactly the types of the meta objects. */
  lemma {:induction false} ObjectTableKeys(objs: seq<GenericMetaObject>)
    ensures ObjectTable(objs).Keys == set o | o in objs :: o.objectType
  {
    if objs != [] {
      var init := objs[..|objs| - 1];
      ObjectTableKeys(init);
      assert objs == init + [objs[|objs| - 1]];
    }
  }

  /** The entry under a type is the last meta object of that type. */
  lemma {:induction false} ObjectTableLastWins(objs: seq<GenericMetaObject>, i: nat)
    requires i < |objs|
    requires forall j :: i < j < |objs| ==> objs[j].objectType != objs[i].objectType
    ensures objs[i].objectType in ObjectTable(objs)
    ensures ObjectTable(objs)[objs[i].objectType] == objs[i]
  {
    if i < |objs| - 1 {
      ObjectTableLastWins(objs[..|objs| - 1], i);
    }
  }

  /**
   * The driver class list read from the `driverClass` attribute: empty when it is absent
   * or empty, and `split(",")` of it otherwise.
   */
  function DriverClassList(attr: Option<string>): (r: seq<string>)
    ensures attr.None? || attr == Some([]) ==> r == []
    ensures forall i :: 0 <= i < |r| ==> JavaSplit.Comma !in r[i]
    ensures JavaSplit.Join(r) == JavaSplit.TrimTrailingCommas(attr.GetOr([]))
    ensures attr.Some? && attr.value != [] ==> r == JavaSplit.Split(attr.value)
    ensures attr.Some? && attr.value != [] && JavaSplit.Comma !in attr.value ==> r == [attr.value]
  {
    match attr
    case None => []
    case Some(s) =>
      if s == [] then []
      else
        JavaSplit.SplitIsCommaFree(s);
        JavaSplit.JoinSplit(s);
        JavaSplit.Split(s)
  }

  /** A meta model instance; `descriptor` is its back-reference to the descriptor that made it. */
  class GenericMetaModel {
    const implClass: ImplClass
    var descriptor: GenericMetaModelDescriptor?

    constructor (implClass: ImplClass)
      ensures this.implClass == implClass && descriptor == null
    {
      this.implClass := implClass;
      descriptor := null;
    }
  }

  class GenericMetaModelDescriptor {
    var implType: ObjectType
    var instance: GenericMetaModel?
    var id: Option<string>
    var objects: map<string, GenericMetaObject>
    var driverClass: Option<seq<string>>

    /**
     * Every table entry sits under its own type, no driver class name holds a
     * comma, and a cached instance points back to this descriptor.
     */
    ghost predicate Valid()
      reads this, instance
    {
      && (forall k :: k in objects ==> objects[k].objectType == k)
      && (driverClass.Some? ==> forall i :: 0 <= i < |driverClass.value| ==> JavaSplit.Comma !in driverClass.value[i])
      && (instance != null ==> instance.descriptor == this)
    }

    /**
     * The default descriptor: bound to the base meta model class, with an
     * instance of it already cached. The identifier and the driver class list
     * are never assigned and stay `null`.
     */
    constructor ()
      ensures implType == ObjectType(Some(GenericMetaModelClassName))
      ensures id.None? && driverClass.None? && objects == map[]
      ensures instance != null && fresh(instance)
      ensures instance.implClass == ImplClass(GenericMetaModelClassName)
      ensures instance.descriptor == this
      ensures Valid()
    {
      implType := ObjectType(Some(GenericMetaModelClassName));
      id := None;
      objects := map[];
      driverClass := None;
      var base := new GenericMetaModel(ImplClass(GenericMetaModelClassName));
      instance := base;
      new;
      base.descriptor := this;
    }

    /**
     * The descriptor read from a configuration element: its `id`, the table of
     * its `object` children, its `driverClass` list and its `class` type. No
     * instance is cached yet.
     */
    constructor FromConfig(cfg: ConfigElement, typeOf: ConfigElement -> string)
      ensures id == GetAttribute(cfg, AttrId)
      ensures objects == ObjectTable(MetaObjects(GetChildren(cfg, TagObject), typeOf))
      ensures driverClass == Some(DriverClassList(GetAttribute(cfg, AttrDriverClass)))
      ensures implType == ObjectType(GetAttribute(cfg, AttrClass))
      ensures instance == null
      ensures Valid()
    {
      id := GetAttribute(cfg, AttrId);
      objects := map[];
      driverClass := None;
      implType := ObjectType(None);
      instance := null;
      new;
      var objectList := GetChildren(cfg, TagObject);
      ghost var metaObjects := MetaObjects(objectList, typeOf);
      var i := 0;
      while i < |objectList|
        invariant 0 <= i <= |objectList|
        invariant objects == ObjectTable(metaObjects[..i])
        invariant id == GetAttribute(cfg, AttrId) && instance == null
      {
        var metaObject := NewMetaObject(objectList[i], typeOf);
        objects := objects[metaObject.objectType := metaObject];
        assert metaObjects[..i + 1][..i] == metaObjects[..i];
        i := i + 1;
      }
      assert metaObjects[..i] == metaObjects;
      driverClass := Some(DriverClassList(GetAttribute(cfg, AttrDriverClass)));
      implType := ObjectType(GetAttribute(cfg, AttrClass));
    }

    /** `getId()`: the identifier, absent for the default descriptor. */
    function GetId(): (r: Option<string>)
      reads this
      ensures r == id
    {
      id
    }

    /**
     * `getDriverClass()`: the driver class list. Despite the `@NotNull`
     * annotation it is absent for the default descriptor; after `FromConfig`
     * it is always present, and no name in it holds a comma.
     */
    function GetDriverClass(): (r: Option<seq<string>>)
      reads this, instance
      ensures r == driverClass
      ensures Valid() && r.Some? ==> forall i :: 0 <= i < |r.value| ==> JavaSplit.Comma !in r.value[i]
    {
      driverClass
    }

    /** `getObject(key)`: the meta object stored under exactly `key`, or `None`. */
    function GetObject(key: string): (r: Option<GenericMetaObject>)
      reads this
      ensures r.Some? <==> key in objects
      ensures r.Some? ==> r.value == objects[key]
    {
      if key in objects then Some(objects[key]) else None
    }

    /**
     * `getInstance()`: the cached instance if there is one, without resolving
     * anything; otherwise resolve the class, instantiate it, cache the new
     * instance and point it back here. A failure leaves nothing cached, so a
     * later call tries again.
     */
    method GetInstance(resolve: ObjectType -> Option<ImplClass>, instantiates: ImplClass -> bool)
      returns (r: Result<GenericMetaModel, InstanceError>)
      modifies this`instance
      ensures old(instance) != null ==> r == Success(old(instance)) && instance == old(instance)
      ensures old(instance) == null && resolve(implType).None? ==>
        r == Failure(ClassNotResolved(implType.implName)) && instance == null
      ensures old(instance) == null && resolve(implType).Some? && !instantiates(resolve(implType).value) ==>
        r == Failure(InstantiationFailed(resolve(implType).value)) && instance == null
      ensures old(instance) == null && resolve(implType).Some? && instantiates(resolve(implType).value) ==>
        && r.Success? && fresh(r.value) && instance == r.value
        && r.value.implClass == resolve(implType).value && r.value.descriptor == this
      ensures r.Success? ==> instance == r.value
      ensures old(Valid()) ==> Valid()
    {
      if instance != null {
        return Success(instance);
      }
      var implClass := resolve(implType);
      if implClass.None? {
        return Failure(ClassNotResolved(implType.implName));
      }
      if !instantiates(implClass.value) {
        return Failure(InstantiationFailed(implClass.value));
      }
      var created := new GenericMetaModel(implClass.value);
      instance := created;
      created.descriptor := this;
      return Success(created);
    }
  }

  /**
   * Two `getInstance` calls in a row, the class loader possibly having changed
   * in between: a success is returned again unchanged, and a failure is not
   * remembered, so the second call succeeds as soon as the class can be
   * resolved and instantiated.
   */
  method GetInstanceTwice(
    d: GenericMetaModelDescriptor,
    resolve1: ObjectType -> Option<ImplClass>, instantiates1: ImplClass -> bool,
    resolve2: ObjectType -> Option<ImplClass>, instantiates2: ImplClass -> bool)
    returns (first: Result<GenericMetaModel, InstanceError>, second: Result<GenericMetaModel, InstanceError>)
    modifies d`instance
    ensures first.Success? ==> second == first && d.instance == first.value
    ensures first.Failure? ==> old(d.instance) == null
    ensures first.Failure? && resolve2(d.implType).None? ==>
      second == Failure(ClassNotResolved(d.implType.implName)) && d.instance == null
    ensures first.Failure? && resolve2(d.implType).Some? && !instantiates2(resolve2(d.implType).value) ==>
      second == Failure(InstantiationFailed(resolve2(d.implType).value)) && d.instance == null
    ensures first.Failure? && resolve2(d.implType).Some? && instantiates2(resolve2(d.implType).value) ==>
      second.Success? && fresh(second.value) && second.value.descriptor == d
  {
    first := d.GetInstance(resolve1, instantiates1);
    second := d.GetInstance(resolve2, instantiates2);
  }
}
