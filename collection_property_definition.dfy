/**
 * The collection property definition of the detach/re-attach engine, and how it
 * derives a collection role ("OwnerEntity.property") from the class hierarchy of
 * the property's owner. Reflection is replaced by explicit class records.
 */
module CollectionProperties {
  import opened Wrappers

  /** An entity identifier (a serializable value in the source). */
  type Id = int

  /** One class of a hierarchy, as reflection and annotation checks would report it. */
  datatype ClassRecord = ClassRecord(name: string, isMappedSuperclass: bool, declaredFields: seq<string>)

  /**
   * The runtime class of an owner and its superclasses: h[0] is the owner's own
   * class and h[i + 1] is the superclass of h[i].
   */
  type Hierarchy = seq<ClassRecord>

  /** The one configuration error role resolution raises. */
  datatype RoleError = MappedSuperclassWithoutParent

  /** A kind of mapped collection (list, set, bag, map, ...) with the plain interface it implements. */
  datatype CollectionKind = CollectionKind(name: string, plainInterface: string)

  /** The object that holds a collection property: its class hierarchy and its identifier. */
  datatype Owner = Owner(hierarchy: Hierarchy, identifier: Id)

  /** An immutable description of one collection property of one owner. */
  datatype CollectionPropertyDefinition = CollectionPropertyDefinition(owner: Owner, property: string, collectionType: CollectionKind)
  {
    /** The collection kind given at construction. */
    function CollectionType(): (k: CollectionKind)
      ensures k == collectionType
    {
      collectionType
    }

    /** The declared type of the property: the plain interface of its collection kind. */
    function PropertyType(): (t: string)
      ensures t == collectionType.plainInterface
    {
      CollectionType().plainInterface
    }
  }

  /** Class c declares a field named `property`. */
  predicate Declares(c: ClassRecord, property: string)
  {
    property in c.declaredFields
  }

  /** Some class at index i or above declares the field. */
  predicate DeclaredAtOrAbove(h: Hierarchy, property: string, i: nat)
  {
    exists j :: i <= j < |h| && Declares(h[j], property)
  }

  /**
   * The inputs on which role resolution does not run off the top of the hierarchy:
   * either the owner's own class is a mapped superclass (rejected at once), or some
   * class of the hierarchy declares the field.
   */
  predicate Resolvable(h: Hierarchy, property: string)
  {
    |h| > 0 && (h[0].isMappedSuperclass || DeclaredAtOrAbove(h, property, 0))
  }

  /** A definition whose role can be computed. */
  predicate RoleDefined(d: CollectionPropertyDefinition)
  {
    Resolvable(d.owner.hierarchy, d.property)
  }

  /**
   * The recursive search of the source: at class i, with `parent` the most recent
   * class below i that is not a mapped superclass (if any), return the index of the
   * class that is to own the property.
   */
  function OwnerClassFrom(h: Hierarchy, property: string, parent: Option<nat>, i: nat): (r: Result<nat, RoleError>)
    requires i < |h|
    requires (h[i].isMappedSuperclass && parent.None?) || DeclaredAtOrAbove(h, property, i)
    requires parent.Some? ==> parent.value < i && !h[parent.value].isMappedSuperclass
    ensures r.Failure? ==> h[i].isMappedSuperclass && parent.None?
    ensures r.Success? ==> r.value < |h| && !h[r.value].isMappedSuperclass
    decreases |h| - i
  {
    var c := h[i];
    if c.isMappedSuperclass && parent.None? then
      Failure(MappedSuperclassWithoutParent)
    else
      var entityClass := if c.isMappedSuperclass then parent.value else i;
      if Declares(c, property) then
        Success(entityClass)
      else
        OwnerClassFrom(h, property, if c.isMappedSuperclass then parent else Some(i), i + 1)
  }

  /** Reference definition: the lowest index at or above i whose class declares the field. */
  function FirstDeclaring(h: Hierarchy, property: string, i: nat): (d: nat)
    requires DeclaredAtOrAbove(h, property, i)
    ensures i <= d < |h| && Declares(h[d], property)
    ensures forall j :: i <= j < d ==> !Declares(h[j], property)
    decreases |h| - i
  {
    if Declares(h[i], property) then i else FirstDeclaring(h, property, i + 1)
  }

  /** Reference definition: the nearest class at or below index k that is not a mapped superclass. */
  function NearestEntity(h: Hierarchy, k: nat): (e: nat)
    requires k < |h| && !h[0].isMappedSuperclass
    ensures e <= k && !h[e].isMappedSuperclass
    ensures forall j :: e < j <= k ==> h[j].isMappedSuperclass
  {
    if !h[k].isMappedSuperclass then k else NearestEntity(h, k - 1)
  }

  /**
   * Above the owner's class, the search carries the nearest non-mapped class below
   * it and ends with the nearest non-mapped class at or below the declaring class.
   */
  lemma {:induction false} ResolvesFrom(h: Hierarchy, property: string, i: nat)
    requires 0 < i < |h| && !h[0].isMappedSuperclass
    requires DeclaredAtOrAbove(h, property, i)
    ensures OwnerClassFrom(h, property, Some(NearestEntity(h, i - 1)), i)
         == Success(NearestEntity(h, FirstDeclaring(h, property, i)))
    decreases |h| - i
  {
    if !Declares(h[i], property) {
      assert DeclaredAtOrAbove(h, property, i + 1);
      ResolvesFrom(h, property, i + 1);
    }
  }

  /**
   * Resolution from the owner's class: it fails exactly when that class is a mapped
   * superclass, and otherwise yields the nearest non-mapped class at or below the
   * first class that declares the field.
   */
  lemma {:induction false} ResolvesToNearestEntity(h: Hierarchy, property: string)
    requires Resolvable(h, property)
    ensures h[0].isMappedSuperclass ==> OwnerClassFrom(h, property, None, 0) == Failure(MappedSuperclassWithoutParent)
    ensures !h[0].isMappedSuperclass ==>
      OwnerClassFrom(h, property, None, 0) == Success(NearestEntity(h, FirstDeclaring(h, property, 0)))
  {
    if !h[0].isMappedSuperclass && !Declares(h[0], property) {
      assert DeclaredAtOrAbove(h, property, 1);
      ResolvesFrom(h, property, 1);
    }
  }

  /** The name of the class that owns the property, starting at the owner's class with no parent. */
  function PropertyOwnerClass(h: Hierarchy, property: string): (r: Result<string, RoleError>)
    requires Resolvable(h, property)
    ensures r.Failure? <==> h[0].isMappedSuperclass
    ensures r.Failure? ==> r.error == MappedSuperclassWithoutParent
    ensures r.Success? ==> r.value == h[NearestEntity(h, FirstDeclaring(h, property, 0))].name
  {
    ResolvesToNearestEntity(h, property);
    match OwnerClassFrom(h, property, None, 0)
    case Success(k) => Success(h[k].name)
    case Failure(e) => Failure(e)
  }

  /** The collection role: the owning class's name, a dot, and the property name. */
  function Role(d: CollectionPropertyDefinition): (r: Result<string, RoleError>)
    requires RoleDefined(d)
    ensures r.Failure? <==> d.owner.hierarchy[0].isMappedSuperclass
    ensures r.Success? ==>
      var h := d.owner.hierarchy;
      r.value == h[NearestEntity(h, FirstDeclaring(h, d.property, 0))].name + "." + d.property
  {
    match PropertyOwnerClass(d.owner.hierarchy, d.property)
    case Success(owner) => Success(owner + "." + d.property)
    case Failure(e) => Failure(e)
  }

  /**
   * A field declared on a mapped superclass directly above an entity owner that
   * lacks the field resolves to that entity, the class below the mapped superclass.
   */
  lemma MappedSuperclassFieldBelongsToEntityBelow()
    ensures
      var h := [ClassRecord("Order", false, []), ClassRecord("Base", true, ["items"]), ClassRecord("Object", false, [])];
      var d := CollectionPropertyDefinition(Owner(h, 42), "items", CollectionKind("bag", "Collection"));
      RoleDefined(d) && Role(d) == Success("Order.items")
  {
    var h := [ClassRecord("Order", false, []), ClassRecord("Base", true, ["items"]), ClassRecord("Object", false, [])];
    assert Declares(h[1], "items");
    assert DeclaredAtOrAbove(h, "items", 0);
    assert FirstDeclaring(h, "items", 0) == 1;
    assert NearestEntity(h, 1) == 0;
    assert "Order" + "." + "items" == "Order.items";
  }
}
