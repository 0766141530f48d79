/**
 * Re-attachment of detached property definitions to the persistence context of a
 * new session. The persistence context is a class whose maps the attacher updates
 * in place; `Context` is its abstract value and the `...Path` functions say what
 * one attach does to it. The ORM engine's factories are opaque functions.
 */
module Attaching {
  import opened Wrappers
  import opened CollectionProperties

  /** The entity class and identifier captured for a to-one association. */
  datatype HibernateProperty = HibernateProperty(entityClass: string, id: Id)

  /** The two kinds of property definition. */
  datatype PropertyDefinition =
    | SimpleProperty(hibernateProperty: HibernateProperty)
    | CollectionProperty(collection: CollectionPropertyDefinition)

  /** An entity persister: the entity it persists and the root entity of that entity's hierarchy. */
  datatype EntityPersister = EntityPersister(entityName: string, rootEntityName: string)

  /** A collection persister, known by the role it persists. */
  datatype CollectionPersister = CollectionPersister(role: string)

  /** The session factory's metamodel: persisters by entity name and by collection role. */
  datatype Metamodel = Metamodel(
    entityPersisters: map<string, EntityPersister>,
    collectionPersisters: map<string, CollectionPersister>)

  /**
   * An entity key. Two keys are equal when identifier and root entity name agree, so a
   * subclass and its root share the keys of one identifier.
   */
  datatype EntityKey = EntityKey(id: Id, rootEntityName: string)

  /** The key an attach builds from an identifier and a persister. */
  function KeyOf(id: Id, persister: EntityPersister): (key: EntityKey)
    ensures key.id == id && key.rootEntityName == persister.rootEntityName
  {
    EntityKey(id, persister.rootEntityName)
  }

  /** Two attaches share an entity key exactly when identifier and root entity name agree. */
  lemma KeysShareByRoot(id1: Id, p1: EntityPersister, id2: Id, p2: EntityPersister)
    ensures KeyOf(id1, p1) == KeyOf(id2, p2) <==> id1 == id2 && p1.rootEntityName == p2.rootEntityName
  {
  }

  /** A collection key: the role's collection persister and the owner's identifier. */
  datatype CollectionKey = CollectionKey(persister: CollectionPersister, key: Id)

  /** A managed entity instance or a proxy, by identity. */
  datatype Obj = Obj(ref: nat)

  /** The detached state a new collection is given: owner identifier and role. */
  datatype Snapshot = Snapshot(key: Id, role: string)

  /** A persistent collection: its identity, its kind and its snapshot, if one was set. */
  datatype Coll = Coll(ref: nat, kind: CollectionKind, snapshot: Option<Snapshot>)

  /** What an attach returns. */
  datatype Attached = Instance(obj: Obj) | Collection(coll: Coll)

  /** Why an attach fails; each is an exception or a null dereference in the source. */
  datatype AttachError =
    | NoSession
    | UnknownEntity(entityName: string)
    | RoleFailure(cause: RoleError)
    | UnknownCollectionRole(role: string)
    | NoOwnerMetadata

  /**
   * The ORM engine's factories, opaque here: a persister's new proxy, the persistence
   * context's narrowing of an existing proxy, and the identity of a new collection.
   */
  datatype Engine = Engine(
    createProxy: (Id, EntityPersister) -> Obj,
    narrowProxy: (Obj, EntityPersister, EntityKey) -> Obj,
    createCollection: CollectionKind -> nat)

  /** A proxy a persister has just created needs no narrowing for that persister. */
  ghost predicate NarrowKeepsOwnProxy(e: Engine)
  {
    forall id, p :: e.narrowProxy(e.createProxy(id, p), p, KeyOf(id, p)) == e.createProxy(id, p)
  }

  /** The abstract value of a persistence context. */
  datatype Context = Context(
    entities: map<EntityKey, Obj>,
    proxies: map<EntityKey, Obj>,
    batchLoadable: set<EntityKey>,
    collections: map<CollectionKey, Coll>,
    uninitialized: set<CollectionKey>,
    unowned: map<CollectionKey, Coll>)

  /**
   * Bookkeeping the attacher keeps: every batch-loadable key has an entity or a proxy,
   * every uninitialised or unowned collection is registered, under the same key.
   */
  ghost predicate Consistent(c: Context)
  {
    && c.batchLoadable <= c.entities.Keys + c.proxies.Keys
    && c.uninitialized <= c.collections.Keys
    && forall k :: k in c.unowned ==> k in c.collections && c.collections[k] == c.unowned[k]
  }

  /** c2 keeps every entity of c1 and every proxy and collection c1 registered. */
  ghost predicate Extends(c1: Context, c2: Context)
  {
    && c2.entities == c1.entities
    && (forall k :: k in c1.proxies ==> k in c2.proxies && c2.proxies[k] == c1.proxies[k])
    && (forall k :: k in c1.collections ==> k in c2.collections && c2.collections[k] == c1.collections[k])
  }

  /** The entity persister for the property's entity class, as the metamodel reports it. */
  function GetPersister(hp: HibernateProperty, meta: Metamodel): (r: Result<EntityPersister, AttachError>)
    ensures r.Success? <==> hp.entityClass in meta.entityPersisters
    ensures r.Success? ==> r.value == meta.entityPersisters[hp.entityClass]
    ensures r.Failure? ==> r.error == UnknownEntity(hp.entityClass)
  {
    if hp.entityClass in meta.entityPersisters then Success(meta.entityPersisters[hp.entityClass])
    else Failure(UnknownEntity(hp.entityClass))
  }

  /** The collection persister for the definition's role, as the metamodel reports it. */
  function GetCollectionPersister(d: CollectionPropertyDefinition, meta: Metamodel): (r: Result<CollectionPersister, AttachError>)
    requires RoleDefined(d)
    ensures r.Success? <==> Role(d).Success? && Role(d).value in meta.collectionPersisters
    ensures r.Success? ==> r.value == meta.collectionPersisters[Role(d).value]
    ensures Role(d).Failure? ==> r == Failure(RoleFailure(Role(d).error))
  {
    match Role(d)
    case Failure(e) => Failure(RoleFailure(e))
    case Success(role) =>
      if role in meta.collectionPersisters then Success(meta.collectionPersisters[role])
      else Failure(UnknownCollectionRole(role))
  }

  /** Lookup before create, for the key of an identifier under a persister. */
  function AttachEntityAt(c: Context, id: Id, persister: EntityPersister, engine: Engine): (res: (Obj, Context))
    ensures var key := KeyOf(id, persister);
      && res.1.entities == c.entities && res.1.collections == c.collections
      && (key in c.entities ==> res.0 == c.entities[key])
      && (res.1 != c ==> key !in c.entities && key !in c.proxies)
      && (key in res.1.entities || (key in res.1.proxies && key in res.1.batchLoadable) || key in c.proxies)
      && (res.1 == c || res.1.proxies[key] == res.0)
  {
    var key := KeyOf(id, persister);
    if key in c.entities then (c.entities[key], c)
    else if key in c.proxies then (engine.narrowProxy(c.proxies[key], persister, key), c)
    else
      var proxy := engine.createProxy(id, persister);
      (proxy, c.(batchLoadable := c.batchLoadable + {key}, proxies := c.proxies[key := proxy]))
  }

  /** The entity path of attach, from the session lookup on. */
  function EntityPath(c: Context, hp: HibernateProperty, hasSession: string -> bool, meta: Metamodel, engine: Engine)
    : (res: (Result<Obj, AttachError>, Context))
    ensures res.0.Success? <==> hasSession(hp.entityClass) && hp.entityClass in meta.entityPersisters
    ensures !hasSession(hp.entityClass) ==> res.0 == Failure(NoSession)
    ensures res.0.Failure? ==> res.1 == c
    ensures hasSession(hp.entityClass) && hp.entityClass !in meta.entityPersisters ==>
      res.0 == Failure(UnknownEntity(hp.entityClass))
    ensures res.0.Success? ==>
      (res.0.value, res.1) == AttachEntityAt(c, hp.id, meta.entityPersisters[hp.entityClass], engine)
  {
    if !hasSession(hp.entityClass) then (Failure(NoSession), c)
    else match GetPersister(hp, meta)
      case Failure(e) => (Failure(e), c)
      case Success(persister) =>
        var (obj, c') := AttachEntityAt(c, hp.id, persister, engine);
        (Success(obj), c')
  }

  /** Lookup before create, for a collection key. */
  function AttachCollectionAt(c: Context, key: CollectionKey, role: string, kind: CollectionKind, engine: Engine)
    : (res: (Coll, Context))
    ensures key in res.1.collections && res.1.collections[key] == res.0
    ensures key in c.collections ==> res.1 == c
    ensures key !in c.collections ==> res.0.kind == kind && res.0.snapshot == Some(Snapshot(key.key, role))
  {
    if key in c.collections then (c.collections[key], c)
    else
      var coll := Coll(engine.createCollection(kind), kind, Some(Snapshot(key.key, role)));
      (coll, c.(collections := c.collections[key := coll], uninitialized := c.uninitialized + {key},
                unowned := c.unowned[key := coll]))
  }

  /** The key (and role) under which a collection definition is attached, or why there is none. */
  function CollectionKeyOf(d: CollectionPropertyDefinition, hasSession: string -> bool, meta: Metamodel)
    : (r: Result<(CollectionKey, string), AttachError>)
    requires RoleDefined(d)
    ensures r.Success? ==> Role(d) == Success(r.value.1) && r.value.0.key == d.owner.identifier
    ensures r.Success? <==>
      && hasSession(d.owner.hierarchy[0].name)
      && !d.owner.hierarchy[0].isMappedSuperclass
      && Role(d).value in meta.collectionPersisters
      && d.owner.hierarchy[0].name in meta.entityPersisters
    ensures r.Success? ==> r.value.0 == CollectionKey(meta.collectionPersisters[r.value.1], d.owner.identifier)
    ensures !hasSession(d.owner.hierarchy[0].name) ==> r == Failure(NoSession)
    ensures hasSession(d.owner.hierarchy[0].name) && Role(d).Failure? ==>
      r == Failure(RoleFailure(Role(d).error))
    ensures hasSession(d.owner.hierarchy[0].name) && Role(d).Success? && Role(d).value !in meta.collectionPersisters ==>
      r == Failure(UnknownCollectionRole(Role(d).value))
    ensures
      && hasSession(d.owner.hierarchy[0].name) && Role(d).Success? && Role(d).value in meta.collectionPersisters
      && d.owner.hierarchy[0].name !in meta.entityPersisters
      ==> r == Failure(NoOwnerMetadata)
  {
    var ownerClass := d.owner.hierarchy[0].name;
    if !hasSession(ownerClass) then Failure(NoSession)
    else match GetCollectionPersister(d, meta)
      case Failure(e) => Failure(e)
      case Success(persister) =>
        if ownerClass !in meta.entityPersisters then Failure(NoOwnerMetadata)
        else Success((CollectionKey(persister, d.owner.identifier), Role(d).value))
  }

  /** The collection path of attach. */
  function CollectionPath(c: Context, d: CollectionPropertyDefinition, hasSession: string -> bool, meta: Metamodel, engine: Engine)
    : (res: (Result<Coll, AttachError>, Context))
    requires RoleDefined(d)
    ensures res.0.Success? <==> CollectionKeyOf(d, hasSession, meta).Success?
    ensures res.0.Failure? ==> res.1 == c && res.0.error == CollectionKeyOf(d, hasSession, meta).error
    ensures res.0.Success? ==>
      var key := CollectionKeyOf(d, hasSession, meta).value.0;
      key in res.1.collections && res.1.collections[key] == res.0.value
    ensures res.0.Success? ==>
      var (key, role) := CollectionKeyOf(d, hasSession, meta).value;
      (res.0.value, res.1) == AttachCollectionAt(c, key, role, d.collectionType, engine)
  {
    match CollectionKeyOf(d, hasSession, meta)
    case Failure(e) => (Failure(e), c)
    case Success((key, role)) =>
      var (coll, c') := AttachCollectionAt(c, key, role, d.collectionType, engine);
      (Success(coll), c')
  }

  /** A definition attach can be asked about: a collection's role must be computable. */
  predicate Attachable(d: PropertyDefinition)
  {
    d.CollectionProperty? ==> RoleDefined(d.collection)
  }

  /** One attach: a simple definition takes the entity path, any other the collection path. */
  function AttachResult(c: Context, d: PropertyDefinition, hasSession: string -> bool, meta: Metamodel, engine: Engine)
    : (res: (Result<Attached, AttachError>, Context))
    requires Attachable(d)
    ensures res.0.Success? ==> (res.0.value.Instance? <==> d.SimpleProperty?)
    ensures res.0.Failure? ==> res.1 == c
    ensures d.SimpleProperty? ==>
      var (r, c') := EntityPath(c, d.hibernateProperty, hasSession, meta, engine);
      res.1 == c' && (r.Success? <==> res.0.Success?) && (r.Success? ==> res.0.value == Instance(r.value))
      && (r.Failure? ==> res.0.error == r.error)
    ensures d.CollectionProperty? ==>
      var (r, c') := CollectionPath(c, d.collection, hasSession, meta, engine);
      res.1 == c' && (r.Success? <==> res.0.Success?) && (r.Success? ==> res.0.value == Collection(r.value))
      && (r.Failure? ==> res.0.error == r.error)
  {
    match d
    case SimpleProperty(hp) =>
      var (r, c') := EntityPath(c, hp, hasSession, meta, engine);
      (if r.Success? then Success(Instance(r.value)) else Failure(r.error), c')
    case CollectionProperty(cd) =>
      var (r, c') := CollectionPath(c, cd, hasSession, meta, engine);
      (if r.Success? then Success(Collection(r.value)) else Failure(r.error), c')
  }

  /**
   * The entity path looks up before it creates: an entity for the key is returned and
   * nothing changes; otherwise an existing proxy is narrowed and nothing changes;
   * only when the key has neither is one proxy created, queued for batch fetching and
   * registered under the key. Entities and collections are never touched.
   */
  lemma EntityAttachChecksBeforeCreate(c: Context, id: Id, persister: EntityPersister, engine: Engine)
    ensures
      var key := KeyOf(id, persister);
      var (obj, c') := AttachEntityAt(c, id, persister, engine);
      && (key in c.entities ==> obj == c.entities[key] && c' == c)
      && (key !in c.entities && key in c.proxies ==>
            obj == engine.narrowProxy(c.proxies[key], persister, key) && c' == c)
      && (key !in c.entities && key !in c.proxies ==>
            && obj == engine.createProxy(id, persister)
            && c' == c.(batchLoadable := c.batchLoadable + {key}, proxies := c.proxies[key := obj]))
      && (c'.proxies != c.proxies ==> key !in c.entities && key !in c.proxies)
  {
  }

  /**
   * Keys are shared along an entity hierarchy: with a proxy registered for Animal#7,
   * attaching Dog#7 (Dog's root entity is Animal) narrows that proxy and registers nothing.
   */
  lemma SubclassAttachNarrowsRootProxy(engine: Engine)
    ensures
      var animal := EntityPersister("Animal", "Animal");
      var dog := EntityPersister("Dog", "Animal");
      var proxy := Obj(1);
      var c := Context(map[], map[KeyOf(7, animal) := proxy], {}, map[], {}, map[]);
      AttachEntityAt(c, 7, dog, engine) == (engine.narrowProxy(proxy, dog, KeyOf(7, dog)), c)
  {
    var animal := EntityPersister("Animal", "Animal");
    var dog := EntityPersister("Dog", "Animal");
    assert KeyOf(7, dog) == KeyOf(7, animal);
  }

  /**
   * The collection path looks up before it creates: a registered collection is returned
   * and nothing changes; otherwise one uninitialised collection of the definition's
   * kind, with snapshot (identifier, role), is registered, uninitialised and unowned,
   * under the key, and nothing else changes.
   */
  lemma CollectionAttachChecksBeforeCreate(c: Context, key: CollectionKey, role: string, kind: CollectionKind, engine: Engine)
    ensures
      var (coll, c') := AttachCollectionAt(c, key, role, kind, engine);
      && (key in c.collections ==> coll == c.collections[key] && c' == c)
      && (key !in c.collections ==>
            && coll.kind == kind && coll.snapshot == Some(Snapshot(key.key, role))
            && c'.collections == c.collections[key := coll]
            && c'.uninitialized == c.uninitialized + {key}
            && c'.unowned == c.unowned[key := coll]
            && c'.entities == c.entities && c'.proxies == c.proxies && c'.batchLoadable == c.batchLoadable)
  {
  }

  /** Attach keeps the context consistent. */
  lemma AttachPreservesConsistency(c: Context, d: PropertyDefinition, hasSession: string -> bool, meta: Metamodel, engine: Engine)
    requires Attachable(d) && Consistent(c)
    ensures Consistent(AttachResult(c, d, hasSession, meta, engine).1)
  {
  }

  /** Attach only ever adds to the context: nothing registered is replaced or removed. */
  lemma AttachExtends(c: Context, d: PropertyDefinition, hasSession: string -> bool, meta: Metamodel, engine: Engine)
    requires Attachable(d)
    ensures Extends(c, AttachResult(c, d, hasSession, meta, engine).1)
  {
  }

  /**
   * Attach is idempotent: attaching the same definition to the context the first attach
   * left behind gives the same result and changes nothing more.
   */
  lemma AttachIdempotent(c: Context, d: PropertyDefinition, hasSession: string -> bool, meta: Metamodel, engine: Engine)
    requires Attachable(d) && NarrowKeepsOwnProxy(engine)
    ensures
      var (r1, c1) := AttachResult(c, d, hasSession, meta, engine);
      AttachResult(c1, d, hasSession, meta, engine) == (r1, c1)
  {
  }

  /** The contexts reached from c by attaching each definition of ds in turn. */
  function AttachEach(c: Context, ds: seq<PropertyDefinition>, hasSession: string -> bool, meta: Metamodel, engine: Engine): (c': Context)
    requires forall i :: 0 <= i < |ds| ==> Attachable(ds[i])
    decreases |ds|
  {
    if ds == [] then c
    else AttachEach(AttachResult(c, ds[0], hasSession, meta, engine).1, ds[1..], hasSession, meta, engine)
  }

  /** Any sequence of attaches only adds to the context. */
  lemma {:induction false} AttachEachExtends(c: Context, ds: seq<PropertyDefinition>, hasSession: string -> bool, meta: Metamodel, engine: Engine)
    requires forall i :: 0 <= i < |ds| ==> Attachable(ds[i])
    ensures Extends(c, AttachEach(c, ds, hasSession, meta, engine))
    decreases |ds|
  {
    if ds != [] {
      var c1 := AttachResult(c, ds[0], hasSession, meta, engine).1;
      AttachExtends(c, ds[0], hasSession, meta, engine);
      AttachEachExtends(c1, ds[1..], hasSession, meta, engine);
    }
  }

  /**
   * No duplicates across a session: once a definition is attached, attaching it again
   * after any other attaches returns the very same instance or collection.
   */
  lemma {:induction false} AttachStableAcrossOthers(c: Context, d: PropertyDefinition, ds: seq<PropertyDefinition>,
                                                    hasSession: string -> bool, meta: Metamodel, engine: Engine)
    requires Attachable(d) && NarrowKeepsOwnProxy(engine)
    requires forall i :: 0 <= i < |ds| ==> Attachable(ds[i])
    ensures
      var (r1, c1) := AttachResult(c, d, hasSession, meta, engine);
      AttachResult(AttachEach(c1, ds, hasSession, meta, engine), d, hasSession, meta, engine).0 == r1
  {
    var (r1, c1) := AttachResult(c, d, hasSession, meta, engine);
    AttachEachExtends(c1, ds, hasSession, meta, engine);
  }

  /** The persistence context of the current session, updated in place. */
  class PersistenceContext {
    var entities: map<EntityKey, Obj>
    var proxies: map<EntityKey, Obj>
    var batchLoadable: set<EntityKey>
    var collections: map<CollectionKey, Coll>
    var uninitialized: set<CollectionKey>
    var unowned: map<CollectionKey, Coll>

    /** The abstract value of this context. */
    function State(): (s: Context)
      reads this
    {
      Context(entities, proxies, batchLoadable, collections, uninitialized, unowned)
    }

    constructor (initial: Context)
      ensures State() == initial
    {
      entities, proxies, batchLoadable := initial.entities, initial.proxies, initial.batchLoadable;
      collections, uninitialized, unowned := initial.collections, initial.uninitialized, initial.unowned;
    }

    /** Registers a proxy under a key. */
    method AddProxy(key: EntityKey, proxy: Obj)
      modifies this
      ensures State() == old(State()).(proxies := old(proxies)[key := proxy])
    {
      proxies := proxies[key := proxy];
    }

    /** Queues a key for batch fetching. */
    method AddBatchLoadableEntityKey(key: EntityKey)
      modifies this
      ensures State() == old(State()).(batchLoadable := old(batchLoadable) + {key})
    {
      batchLoadable := batchLoadable + {key};
    }

    /** Registers an uninitialised detached collection under the key its snapshot names. */
    method AddUninitializedDetachedCollection(persister: CollectionPersister, coll: Coll)
      requires coll.snapshot.Some?
      modifies this
      ensures
        var key := CollectionKey(persister, coll.snapshot.value.key);
        State() == old(State()).(collections := old(collections)[key := coll], uninitialized := old(uninitialized) + {key})
    {
      var key := CollectionKey(persister, coll.snapshot.value.key);
      collections := collections[key := coll];
      uninitialized := uninitialized + {key};
    }

    /** Records a collection as not yet owned by a loaded entity. */
    method AddUnownedCollection(key: CollectionKey, coll: Coll)
      modifies this
      ensures State() == old(State()).(unowned := old(unowned)[key := coll])
    {
      unowned := unowned[key := coll];
    }
  }

  /** Attaches one property definition, finding sessions through `sessionFinder`. */
  class Attacher {
    const propertyDefinition: PropertyDefinition
    const sessionFinder: string -> bool

    constructor (def: PropertyDefinition, sessionFinder: string -> bool)
      ensures propertyDefinition == def && this.sessionFinder == sessionFinder
    {
      propertyDefinition := def;
      this.sessionFinder := sessionFinder;
    }

    /** The entity path: an existing entity, else a narrowed existing proxy, else a new registered proxy. */
    method AttachSimple(hp: HibernateProperty, ctx: PersistenceContext, meta: Metamodel, engine: Engine)
      returns (r: Result<Obj, AttachError>)
      modifies ctx
      ensures (r, ctx.State()) == EntityPath(old(ctx.State()), hp, sessionFinder, meta, engine)
    {
      if !sessionFinder(hp.entityClass) {
        return Failure(NoSession);
      }
      var persister := GetPersister(hp, meta);
      if persister.Failure? {
        return Failure(persister.error);
      }
      var key := KeyOf(hp.id, persister.value);
      var instance: Option<Obj> := if key in ctx.entities then Some(ctx.entities[key]) else None;
      if instance.None? {
        if key !in ctx.proxies {
          var proxy := engine.createProxy(hp.id, persister.value);
          ctx.AddBatchLoadableEntityKey(key);
          ctx.AddProxy(key, proxy);
          instance := Some(proxy);
        } else {
          instance := Some(engine.narrowProxy(ctx.proxies[key], persister.value, key));
        }
      }
      r := Success(instance.value);
    }

    /** The collection path: an existing collection, else a new uninitialised one registered under its key. */
    method AttachCollection(d: CollectionPropertyDefinition, ctx: PersistenceContext, meta: Metamodel, engine: Engine)
      returns (r: Result<Coll, AttachError>)
      requires RoleDefined(d)
      modifies ctx
      ensures (r, ctx.State()) == CollectionPath(old(ctx.State()), d, sessionFinder, meta, engine)
    {
      var ownerClass := d.owner.hierarchy[0].name;
      if !sessionFinder(ownerClass) {
        return Failure(NoSession);
      }
      var persister := GetCollectionPersister(d, meta);
      if persister.Failure? {
        return Failure(persister.error);
      }
      if ownerClass !in meta.entityPersisters {
        return Failure(NoOwnerMetadata);
      }
      var identifier := d.owner.identifier;
      var key := CollectionKey(persister.value, identifier);
      var collection: Option<Coll> := if key in ctx.collections then Some(ctx.collections[key]) else None;
      if collection.None? {
        var created := Coll(engine.createCollection(d.CollectionType()), d.CollectionType(), None);
        created := created.(snapshot := Some(Snapshot(identifier, Role(d).value)));
        ctx.AddUninitializedDetachedCollection(persister.value, created);
        ctx.AddUnownedCollection(key, created);
        collection := Some(created);
      }
      r := Success(collection.value);
    }

    /** Dispatches on the kind of the definition this attacher was built for. */
    method Attach(ctx: PersistenceContext, meta: Metamodel, engine: Engine) returns (r: Result<Attached, AttachError>)
      requires Attachable(propertyDefinition)
      modifies ctx
      ensures (r, ctx.State()) == AttachResult(old(ctx.State()), propertyDefinition, sessionFinder, meta, engine)
    {
      match propertyDefinition
      case SimpleProperty(hp) =>
        var o := AttachSimple(hp, ctx, meta, engine);
        r := if o.Success? then Success(Instance(o.value)) else Failure(o.error);
      case CollectionProperty(cd) =>
        var o := AttachCollection(cd, ctx, meta, engine);
        r := if o.Success? then Success(Collection(o.value)) else Failure(o.error);
    }
  }
}
