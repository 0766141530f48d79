# Detach / re-attach engine of dozer-model, in Dafny

This project models the core of a library that lets a web UI framework keep
serializable references to ORM-managed objects across requests. It covers three pieces:

- **Collection role resolution** (`collection_property_definition.dfy`, module
  `CollectionProperties`). A collection property definition derives its role,
  `OwnerEntity.property`. It climbs the owner's class hierarchy to the class that
  declares the field. It then reports the nearest class on that path that is not a
  `@MappedSuperclass`. It fails when the owner's own class is a mapped superclass.
  Reflection is replaced by a sequence of class records `{name, isMappedSuperclass,
  declaredFields}`. Index 0 is the owner's runtime class and index `i + 1` is the
  superclass of index `i`. This part is pure: recursive functions, and lemmas that
  relate them to independent reference definitions (`FirstDeclaring`, `NearestEntity`).
- **Attacher** (`attacher.dfy`, module `Attaching`). It re-attaches a detached
  definition to the persistence context of the current session, looking up before it
  creates. The persistence context is a class (`PersistenceContext`) whose maps the
  attacher updates in place: entities, proxies, batch-loadable keys, collections,
  uninitialised collections and unowned collections. `Context` is its abstract value.
  The functions `EntityPath`, `CollectionPath` and `AttachResult` give the outcome and
  the new context of one attach. The `Attacher` methods are proved equal to them. The
  lemmas state check-before-create, "nothing else changes", idempotence per key, and
  stability of an attached result across any later sequence of attaches.
- **Object visitor walk** (`object_visitor.dfy`, module `Visiting`). This is the
  depth-first walk that detaches an object graph, using a monotonic `seen` set. The
  visitor is a class with a mutable `seen` set and a ghost log `runs` of the nodes
  whose strategy ran. The collaborators come in as a `World` value: the node universe,
  each node's class, the session and metadata predicates, each node's kind, and the
  children each strategy reports. The walk terminates, because the unseen part of the
  universe shrinks. It runs each node's strategy at most once. Every node it runs on is
  reachable from the root. On a fresh visitor, it marks exactly the nodes reachable from
  the root through nodes that have a session.

`wrappers.dfy` holds the `Option` and `Result` datatypes. Errors that the source throws
(or hits as a null dereference) are `Failure` values.

### Which class owns a field of a mapped superclass

The Javadoc of `getPropertyOwnerClass` (`CollectionPropertyDefinition.java:58-61`) asks
to "retain the first superclass that is NOT a MappedSuperclass", which on its own does
not say in which direction to look. The `parentEntityClazz` parameter's description
(`:66-67`) and the exception message (`:74`) settle it: the retained class is the
carried parent, the nearest non-mapped class *below* the mapped superclass, on the path
from the owner's class, and resolution fails only when the owner's own class is a mapped
superclass, since it then has no such parent. The model follows the code
(`:70-88`), and `MappedSuperclassFieldBelongsToEntityBelow` shows it on a concrete
hierarchy.

## Model

| member | source | states |
|---|---|---|
| `CollectionProperties.CollectionPropertyDefinition.CollectionType` | src/main/java/nl/dries/wicket/hibernate/dozer/properties/CollectionPropertyDefinition.java:44-47 | the collection kind is the one given at construction |
| `CollectionProperties.CollectionPropertyDefinition.PropertyType` | src/main/java/nl/dries/wicket/hibernate/dozer/properties/CollectionPropertyDefinition.java:103-107 | the property type is the plain interface of the definition's collection kind |
| `CollectionProperties.OwnerClassFrom` | src/main/java/nl/dries/wicket/hibernate/dozer/properties/CollectionPropertyDefinition.java:70-88 | the recursive search fails only at a mapped superclass with no parent, and any class it returns is not a mapped superclass |
| `CollectionProperties.ResolvesFrom` | src/main/java/nl/dries/wicket/hibernate/dozer/properties/CollectionPropertyDefinition.java:78-87 | above the owner's class, the carried parent is the nearest non-mapped class below, and the search ends at the nearest non-mapped class at or below the first declaring class |
| `CollectionProperties.ResolvesToNearestEntity` | src/main/java/nl/dries/wicket/hibernate/dozer/properties/CollectionPropertyDefinition.java:70-98 | starting at the owner's class with no parent, resolution throws exactly when that class is a mapped superclass; otherwise it yields the nearest non-mapped class at or below the first class declaring the field |
| `CollectionProperties.PropertyOwnerClass` | src/main/java/nl/dries/wicket/hibernate/dozer/properties/CollectionPropertyDefinition.java:96-98 | the owner class name fails with "mapped superclass without a parent" iff the owner's class is mapped; otherwise it is the name of that nearest non-mapped class |
| `CollectionProperties.Role` | src/main/java/nl/dries/wicket/hibernate/dozer/properties/CollectionPropertyDefinition.java:52-55 | the role is the resolved owner class name, then ".", then the property name; it fails iff the owner's class is a mapped superclass |
| `CollectionProperties.MappedSuperclassFieldBelongsToEntityBelow` | src/main/java/nl/dries/wicket/hibernate/dozer/properties/CollectionPropertyDefinition.java:72-80 | a field declared on a mapped superclass above entity `Order` gives the role `Order.items` |
| `Attaching.GetPersister` | src/main/java/nl/dries/wicket/hibernate/dozer/helper/Attacher.java:133-137 | succeeds iff the metamodel knows the entity class, with that class's persister; otherwise an unknown-entity error |
| `Attaching.GetCollectionPersister` | src/main/java/nl/dries/wicket/hibernate/dozer/helper/Attacher.java:146-151 | succeeds iff the role resolves and the metamodel knows it; a role failure is passed on |
| `Attaching.CollectionKeyOf` | src/main/java/nl/dries/wicket/hibernate/dozer/helper/Attacher.java:96-111 | a collection key exists iff the owner's class has a session, a resolvable role with a persister, and entity metadata; the key is the role's collection persister with the owner's identifier; otherwise the failure is, in the source's order, "no session", the role failure, the unknown role, or missing owner metadata |
| `Attaching.KeyOf` | src/main/java/nl/dries/wicket/hibernate/dozer/helper/Attacher.java:62 | the entity key of an identifier under a persister is that identifier with the persister's root entity name, so subclass persisters share their root's keys |
| `Attaching.KeysShareByRoot` | src/main/java/nl/dries/wicket/hibernate/dozer/helper/Attacher.java:62 | two attaches use the same entity key exactly when their identifiers agree and their persisters have the same root entity name |
| `Attaching.AttachEntityAt` | src/main/java/nl/dries/wicket/hibernate/dozer/helper/Attacher.java:62-81 | the entity map and the collections never change; an existing entity is returned; the context changes only when the key had neither entity nor proxy; afterwards the key has an entity, a proxy queued for batch fetch, or its earlier proxy; a new proxy is the one registered |
| `Attaching.EntityPath` | src/main/java/nl/dries/wicket/hibernate/dozer/helper/Attacher.java:54-86 | a simple property attaches iff its class has a session and entity metadata; without a session the error is "no session", without metadata "unknown entity"; a failure leaves the context unchanged; a success is the lookup-before-create at the key of the property's identifier under the metamodel's persister |
| `Attaching.AttachCollectionAt` | src/main/java/nl/dries/wicket/hibernate/dozer/helper/Attacher.java:111-120 | afterwards the key maps to the returned collection; an existing collection leaves the context unchanged; a new one has the definition's kind and the snapshot (identifier, role) |
| `Attaching.CollectionPath` | src/main/java/nl/dries/wicket/hibernate/dozer/helper/Attacher.java:94-124 | a collection property attaches iff its collection key can be computed, with that key's failure otherwise and the context unchanged; a success is the lookup-before-create at that key with the definition's role and kind, so the result is registered under the key |
| `Attaching.AttachResult` | src/main/java/nl/dries/wicket/hibernate/dozer/helper/Attacher.java:169-177 | a simple definition takes the entity path and any other the collection path, with that path's new context, its success wrapped as an instance or a collection, and its error on failure; a failure leaves the context unchanged |
| `Attaching.SubclassAttachNarrowsRootProxy` | src/main/java/nl/dries/wicket/hibernate/dozer/helper/Attacher.java:62-81 | a subclass definition whose identifier already has a proxy registered under the root entity narrows that proxy and leaves the context unchanged |
| `Attaching.EntityAttachChecksBeforeCreate` | src/main/java/nl/dries/wicket/hibernate/dozer/helper/Attacher.java:62-85 | an existing entity is returned unchanged; else an existing proxy is narrowed and nothing changes; else one new proxy is queued for batch fetch and registered; a proxy is only registered under a key with neither entity nor proxy |
| `Attaching.CollectionAttachChecksBeforeCreate` | src/main/java/nl/dries/wicket/hibernate/dozer/helper/Attacher.java:111-123 | an existing collection is returned and nothing changes; else one collection of the definition's kind with snapshot (identifier, role) is registered, uninitialised and unowned, under the key, and nothing else changes |
| `Attaching.AttachPreservesConsistency` | src/main/java/nl/dries/wicket/hibernate/dozer/helper/Attacher.java:54-124 | attach keeps every batch-loadable key backed by an entity or proxy, and every uninitialised or unowned collection registered under its key |
| `Attaching.AttachExtends` | src/main/java/nl/dries/wicket/hibernate/dozer/helper/Attacher.java:54-124 | attach never changes the entities and never replaces or removes a registered proxy or collection |
| `Attaching.AttachIdempotent` | src/main/java/nl/dries/wicket/hibernate/dozer/helper/Attacher.java:169-177 | attaching the same definition again returns the same result and leaves the context unchanged |
| `Attaching.AttachEachExtends` | src/main/java/nl/dries/wicket/hibernate/dozer/helper/Attacher.java:169-177 | any sequence of attaches only adds to the context |
| `Attaching.AttachStableAcrossOthers` | src/main/java/nl/dries/wicket/hibernate/dozer/helper/Attacher.java:169-177 | once a definition is attached, attaching it again after any other attaches returns the same instance or collection (no duplicate per key) |
| `Attaching.PersistenceContext.AddProxy` | src/main/java/nl/dries/wicket/hibernate/dozer/helper/Attacher.java:76 | registers the proxy under the key; nothing else changes |
| `Attaching.PersistenceContext.AddBatchLoadableEntityKey` | src/main/java/nl/dries/wicket/hibernate/dozer/helper/Attacher.java:75 | adds the key to the batch-fetch set; nothing else changes |
| `Attaching.PersistenceContext.AddUninitializedDetachedCollection` | src/main/java/nl/dries/wicket/hibernate/dozer/helper/Attacher.java:118 | registers the collection as uninitialised under (persister, snapshot key); nothing else changes |
| `Attaching.PersistenceContext.AddUnownedCollection` | src/main/java/nl/dries/wicket/hibernate/dozer/helper/Attacher.java:119 | records the collection as unowned under the key; nothing else changes |
| `Attaching.Attacher.constructor` | src/main/java/nl/dries/wicket/hibernate/dozer/helper/Attacher.java:41-45 | keeps the definition and the session finder it is given |
| `Attaching.Attacher.AttachSimple` | src/main/java/nl/dries/wicket/hibernate/dozer/helper/Attacher.java:54-86 | the result and the new context are those of the entity path on the old context |
| `Attaching.Attacher.AttachCollection` | src/main/java/nl/dries/wicket/hibernate/dozer/helper/Attacher.java:94-124 | the result and the new context are those of the collection path on the old context |
| `Attaching.Attacher.Attach` | src/main/java/nl/dries/wicket/hibernate/dozer/helper/Attacher.java:169-177 | a simple definition takes the entity path and any other the collection path, with that path's result and new context |
| `Visiting.StrategyFor` | src/main/java/nl/dries/wicket/hibernate/dozer/visitor/ObjectVisitor.java:95-110 | the selected strategy applies to the node, and no strategy earlier in the order entity metadata, Collection, Map, basic object applies |
| `Visiting.RunTreeGrows` | src/main/java/nl/dries/wicket/hibernate/dozer/visitor/ObjectVisitor.java:112-126 | running the strategy of the root, or of a reported child of a node already run, keeps the run log a tree rooted at the root |
| `Visiting.RunsAreReachable` | src/main/java/nl/dries/wicket/hibernate/dozer/visitor/ObjectVisitor.java:114-126 | every node whose strategy ran is reachable from the root through strategy-reported children that have a session |
| `Visiting.ExpandedSetHoldsPath` | src/main/java/nl/dries/wicket/hibernate/dozer/visitor/ObjectVisitor.java:116-127 | a set that holds the root and every reported child with a session of its members holds every node reachable from the root |
| `Visiting.ObjectVisitor.constructor` | src/main/java/nl/dries/wicket/hibernate/dozer/visitor/ObjectVisitor.java:47-53 | keeps root and collaborators; `seen` starts empty |
| `Visiting.ObjectVisitor.Walk` | src/main/java/nl/dries/wicket/hibernate/dozer/visitor/ObjectVisitor.java:60-64 | returns exactly the root; `seen` only grows; each strategy runs at most once per node, only on nodes reachable from the root; on a fresh visitor `seen` ends as exactly the nodes reachable through nodes with a session |
| `Visiting.ObjectVisitor.WalkFrom` | src/main/java/nl/dries/wicket/hibernate/dozer/visitor/ObjectVisitor.java:72-128 | a node without a session is neither marked nor expanded; otherwise it is marked seen and logged before its children; every reported child with a session ends up seen; terminates because the unseen part of the universe shrinks |

## Left out

- Logging (`LOG.debug`) and Java serialisation (`serialVersionUID`) are not modelled.
- `Attacher.getOwnPersister` is not modelled. Nothing calls it.
- Running off the top of the hierarchy is not modelled. That case is a null dereference in the source, when no class declares the field and the owner's class is not a mapped superclass. It is the precondition `Resolvable` (`RoleDefined`) instead.
- Reflection and annotation checks are not modelled. The hierarchy is given as class records, and classes are compared by index, not by `Class` object.
- The session finder (a thread-bound session lookup in the tests) is not modelled. It becomes an input `string -> bool`: whether a session exists for a class.
- Only one session is modelled. A finder that returns different sessions for different classes is not captured. The session's persistence context and metamodel are parameters.
- `createProxy`, `narrowProxy` and `createCollection` are opaque functions. Their internals are not modelled, and neither is the freshness of the objects they create.
- Hibernate's `narrowProxy` can remove the key from its proxy map when the old proxy was already initialised. The model treats `narrowProxy` as having no effect on the context.
- Batch-fetch queue internals are not modelled. The queue is a set of keys.
- `ClassMetadata.getIdentifier` is not modelled. The owner's identifier is a field of the owner.
- The collection kind enumeration is not part of this model. A kind is a record with its name and plain interface.
- The four visitor strategies and their side effects on nodes are not modelled. Each strategy's reported children come from the input `visit`, and the model callback they receive is left out.
- Java iterates the children set in an unspecified order. The model picks the next child nondeterministically, so every order is covered.
- Entity keys compare by identifier and root entity name, as Hibernate's `EntityKey` does. Persisters are records of entity and root entity name; the rest of the persister is not modelled.
- `Attaching.AttachIdempotent`: for a key with neither entity nor proxy, it holds only if `narrowProxy` returns, unchanged, a proxy that the same persister just created for that key (`NarrowKeepsOwnProxy`). Hibernate's proxy classes make this true, but they are not part of this model. For a key that already has a proxy, the same result comes only from `narrowProxy` being a function here: when the registered proxy is uninitialised and not of the persister's proxy class, Hibernate's `narrowProxy` builds a new, unregistered proxy on every call, so the source returns a different object each time.
- `Attaching.AttachStableAcrossOthers` rests on the same `NarrowKeepsOwnProxy` assumption, and over an existing proxy on the same reading of `narrowProxy` as a function.
- `Attaching.Attacher.constructor` takes the session finder as an argument. The source obtains it from the definition's model callback (`Attacher.java:44`); the callback is not modelled.
- `Visiting.ObjectVisitor.Walk` states the exact reachable-set characterisation only when `seen` starts empty. On a second `walk()` of the same visitor, the source runs the root's strategy again; the model allows that but states only monotonicity, reachability and at-most-once for that walk.
