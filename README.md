# Composite config-object adapter (dcm4che `ReflectiveAdapter`), modelled in Dafny

dcm4che's configuration framework converts between generic config nodes
(nested maps, lists and scalars) and annotated Java configuration objects.
`ReflectiveAdapter` is the adapter for composite classes. This project models
its three directions and the identity registry its load path relies on:

- **Load** (`fromConfigNode`, `populate`). A null node loads as null. A node
  that is not a map fails and names the target class. A *stateful* adapter
  populates the instance it was built with. A *stateless* adapter reads the
  reserved UUID key. A UUID that is not a string fails. Without a UUID the
  adapter creates and populates one instance. With a UUID it registers a
  write-once cell in the loading context. The first requester owns the cell:
  it creates and populates the instance, then settles the cell with that
  instance or with the failure it rethrows. Later requesters get what the
  cell holds.
- **Save** (`toConfigNode`). Walks the descriptors of the object's runtime
  class and asks child adapters for each property's node. The result is a
  `TreeMap`, here a strictly key-sorted association list.
- **Schema** (`getSchema`). A first pass computes the class-wide
  `includeOrder` flag. A second pass builds one metadata map per property,
  and the child adapter's own schema then overwrites keys in it.

Layout, one module per file:

| file | module | contents |
|---|---|---|
| wrappers.dfy | Wrappers | Option, Result |
| config_types.dfy | ConfigTypes | config `Node`, `ClassRef`, `Descriptor`, `Error`, class `ConfObject`, `Value` |
| contexts.dfy | Contexts | the collaborators the adapter calls, as function-typed fields |
| registry.dfy | Registry | result `Cell`, class `LoadingContext` (the UUID registry) |
| sorted_maps.dfy | SortedMaps | string order, sorted association lists, `Put` (TreeMap.put) |
| load_spec.dfy | LoadSpec | identity-key reading, the populate walk and its lemmas |
| save_spec.dfy | SaveSpec | the save walk and its lemmas |
| schema_spec.dfy | SchemaSpec | per-property metadata, the schema, and its lemmas |
| reflective_adapter.dfy | Adapter | class `ReflectiveAdapter` with the imperative operations |
| round_trip.dfy | RoundTrip | save after load gives back the node |
| scenarios.dfy | Scenarios | two loads sharing one context, and two loads in separate contexts |

The class methods follow the Java loops. Each one is proved against a spec
function: `Populate` against `PopulateFrom`, `ToConfigNode` against
`SaveFrom`, and `GetSchema` against `Schema`. The lemmas establish what the
source promises about those functions.

Sequential registry semantics: `LoadingContext.Valid()` says every cell is
settled between calls and no UUID has had two owners. `FromConfigNode`
maintains it. A second request for an identity that is already registered
creates nothing, populates nothing and leaves the registry unchanged.

## Model

| member | source | states |
|---|---|---|
| Adapter.ReflectiveAdapter.Stateless | dcm4che-conf/dcm4che-conf-core/src/main/java/org/dcm4che3/conf/core/adapters/ReflectiveAdapter.java:67-71 | a stateless adapter has no provided instance |
| Adapter.ReflectiveAdapter.Stateful | dcm4che-conf/dcm4che-conf-core/src/main/java/org/dcm4che3/conf/core/adapters/ReflectiveAdapter.java:73-78 | a stateful adapter holds the given instance (null makes it stateless) |
| Adapter.ReflectiveAdapter.FromConfigNode | dcm4che-conf/dcm4che-conf-core/src/main/java/org/dcm4che3/conf/core/adapters/ReflectiveAdapter.java:81-135 | null node gives null; a non-map fails naming the class; stateful populates and returns the provided instance without touching the registry; a malformed UUID fails with nothing created or registered; no UUID creates one fresh populated instance and leaves the registry alone; a registered UUID returns the cell's instance or failure and changes nothing; the owner registers once and settles its cell with the very instance it returns or the very error it raises; `Valid()` (all cells settled, at most one owner per UUID) is preserved |
| Adapter.ReflectiveAdapter.NewPopulated | dcm4che-conf/dcm4che-conf-core/src/main/java/org/dcm4che3/conf/core/adapters/ReflectiveAdapter.java:105-109 | fails if the factory cannot instantiate; otherwise returns a fresh instance of the class whose fields are the populate walk's, or the walk's error |
| Adapter.ReflectiveAdapter.Populate | dcm4che-conf/dcm4che-conf-core/src/main/java/org/dcm4che3/conf/core/adapters/ReflectiveAdapter.java:137-146 | the fields after the loop and the error it ends with are exactly those of the populate walk over the class's descriptors in order |
| Adapter.ReflectiveAdapter.ToConfigNode | dcm4che-conf/dcm4che-conf-core/src/main/java/org/dcm4che3/conf/core/adapters/ReflectiveAdapter.java:150-169 | null saves as null; otherwise the runtime class's descriptors are walked; the result is strictly key-sorted and denotes the save walk's map, or is the first failing property's error |
| Adapter.ReflectiveAdapter.GetSchema | dcm4che-conf/dcm4che-conf-core/src/main/java/org/dcm4che3/conf/core/adapters/ReflectiveAdapter.java:172-227 | the two loops compute exactly the schema `SchemaSpec.Schema` of the property's type |
| Adapter.ReflectiveAdapter.Normalize | dcm4che-conf/dcm4che-conf-core/src/main/java/org/dcm4che3/conf/core/adapters/ReflectiveAdapter.java:229-232 | a map or null passes unchanged; anything else is a cast failure |
| Adapter.CompositeDefaultShowsAsZero | dcm4che-conf/dcm4che-conf-core/src/main/java/org/dcm4che3/conf/core/adapters/ReflectiveAdapter.java:207-212 | a declared default on a property served by this adapter is rendered as 0, since the cast refuses the string literal |
| Registry.LoadingContext.RegisterIfAbsent | dcm4che-conf/dcm4che-conf-core/src/main/java/org/dcm4che3/conf/core/adapters/ReflectiveAdapter.java:112-113 | first writer wins: an existing cell is returned and nothing changes, else a pending cell is added |
| Registry.LoadingContext.Settle | dcm4che-conf/dcm4che-conf-core/src/main/java/org/dcm4che3/conf/core/adapters/ReflectiveAdapter.java:125-133 | a cell is settled only while pending (write-once), and only that cell changes |
| LoadSpec.FieldLoad | dcm4che-conf/dcm4che-conf-core/src/main/java/org/dcm4che3/conf/core/adapters/ReflectiveAdapter.java:140-144 | loading a property succeeds iff the child adapter succeeds and the setter accepts the value; a failure names the annotated name, field name and simple class name |
| LoadSpec.FirstLoadFailure | dcm4che-conf/dcm4che-conf-core/src/main/java/org/dcm4che3/conf/core/adapters/ReflectiveAdapter.java:139-145 | the index returned is a failing property with every earlier one succeeding; none iff all succeed |
| LoadSpec.PopulateStopsAtFirstFailure | dcm4che-conf/dcm4che-conf-core/src/main/java/org/dcm4che3/conf/core/adapters/ReflectiveAdapter.java:139-145 | populate fails iff some property fails, with the first failing property's error, the properties before it staying assigned |
| LoadSpec.PopulateAssigns | dcm4che-conf/dcm4che-conf-core/src/main/java/org/dcm4che3/conf/core/adapters/ReflectiveAdapter.java:139-142 | a successful populate assigns every descriptor's field (the last descriptor naming a field wins) and leaves other fields alone |
| SortedMaps.Put | dcm4che-conf/dcm4che-conf-core/src/main/java/org/dcm4che3/conf/core/adapters/ReflectiveAdapter.java:156 | putting into the TreeMap keeps the keys strictly sorted and updates exactly one key of the denoted map |
| SaveSpec.FieldSave | dcm4che-conf/dcm4che-conf-core/src/main/java/org/dcm4che3/conf/core/adapters/ReflectiveAdapter.java:160-164 | saving a property succeeds iff the getter and the child adapter succeed; a failure names the field and the simple class name |
| SaveSpec.FirstSaveFailure | dcm4che-conf/dcm4che-conf-core/src/main/java/org/dcm4che3/conf/core/adapters/ReflectiveAdapter.java:159-166 | the index returned is a failing property with every earlier one succeeding; none iff all succeed |
| SaveSpec.SaveStopsAtFirstFailure | dcm4che-conf/dcm4che-conf-core/src/main/java/org/dcm4che3/conf/core/adapters/ReflectiveAdapter.java:159-166 | the save fails iff some property fails, and with the first failing property's error |
| SaveSpec.SaveEntries | dcm4che-conf/dcm4che-conf-core/src/main/java/org/dcm4che3/conf/core/adapters/ReflectiveAdapter.java:156-168 | a successful save has exactly one key per property that produced a node; under each key is the node of the last property that put one there |
| SchemaSpec.CommonMetadata | dcm4che-conf/dcm4che-conf-core/src/main/java/org/dcm4che3/conf/core/adapters/ReflectiveAdapter.java:202-219 | title, description and tags appear iff non-empty; uiOrder iff the class-wide flag; uiGroup always; default iff declared, as the normalized node or 0 on a cast failure; any other normalize failure aborts |
| SchemaSpec.PropertyMetadata | dcm4che-conf/dcm4che-conf-core/src/main/java/org/dcm4che3/conf/core/adapters/ReflectiveAdapter.java:196-223 | the child adapter's schema is merged in with its keys overwriting the common ones; a lookup, normalize or child-schema failure fails the property |
| SchemaSpec.MetadataOk | dcm4che-conf/dcm4che-conf-core/src/main/java/org/dcm4che3/conf/core/adapters/ReflectiveAdapter.java:194-224 | the properties map fails iff some property's metadata fails |
| SchemaSpec.MetadataEntries | dcm4che-conf/dcm4che-conf-core/src/main/java/org/dcm4che3/conf/core/adapters/ReflectiveAdapter.java:194-224 | the properties map has one key per annotated name, holding the metadata of the last descriptor with that name |
| SchemaSpec.SchemaShape | dcm4che-conf/dcm4che-conf-core/src/main/java/org/dcm4che3/conf/core/adapters/ReflectiveAdapter.java:177-181 | the wrapper has exactly type = "object", class = simple name, and properties with one entry per annotated name |
| SchemaSpec.SchemaEntry | dcm4che-conf/dcm4che-conf-core/src/main/java/org/dcm4che3/conf/core/adapters/ReflectiveAdapter.java:199-200 | each property's entry in the schema is its metadata map |
| SchemaSpec.UiOrderAllOrNothing | dcm4che-conf/dcm4che-conf-core/src/main/java/org/dcm4che3/conf/core/adapters/ReflectiveAdapter.java:184-217 | unless a child schema sets it, uiOrder is on every entry (with the property's order) iff some descriptor's order is nonzero |
| RoundTrip.LoadThenSave | dcm4che-conf/dcm4che-conf-core/src/main/java/org/dcm4che3/conf/core/adapters/ReflectiveAdapter.java:137-169 | if each property round-trips through its own adapter, saving the loaded instance gives back the loaded node |
| Scenarios.LoadSameIdentityTwice | dcm4che-conf/dcm4che-conf-core/src/main/java/org/dcm4che3/conf/core/adapters/ReflectiveAdapter.java:111-134 | two loads of one identified node in one context have the same outcome, and the identity gets at most one owner |
| Scenarios.LoadInFreshContexts | dcm4che-conf/dcm4che-conf-core/src/main/java/org/dcm4che3/conf/core/adapters/ReflectiveAdapter.java:111-134 | the same identified node loaded in two fresh contexts gives two distinct instances with equal fields |

Three behaviours of the code that are easy to misread:

- A populate error names the class whose descriptors are walked. That is the
  slot's declared type, not the property's declaring class.
- Failures in schema generation are not wrapped. An exception from
  `lookupTypeAdapter`, from a non-cast `normalize` failure or from a child
  `getSchema` propagates unchanged.
- A `MalformedUuid` failure arises only for a UUID value that is present,
  non-null and not a string. A null UUID value means "no identity".

## Left out

- Reflection. `ConfigReflection.getAllConfigurableFields`, `PropertyUtils.getSimpleProperty`/`setSimpleProperty` and `Class.getName`/`getSimpleName` are supplied by the caller: a descriptor function, two predicates saying whether a getter or setter succeeds, and the two names in `ClassRef`.
- Delegation to other adapters. `DefaultConfigTypeAdapters.delegateGetChildFromConfigNode`, `delegateChildToConfigNode`, `lookupTypeAdapter`, and the child's `normalize` and `getSchema` are caller-supplied functions, including the dynamic subtype hint resolved inside the delegate. Because they are functions, a nested load cannot register or resolve identities in the same loading context. Identity sharing is therefore modelled for the object being loaded, not for objects nested in it.
- The delegate for save is assumed to put the child adapter's node under the property's annotated name, or to add nothing. `DefaultConfigTypeAdapters` is not part of this model.
- `resolveFutureOrFail` is not part of this model. A waiter is taken to get the settled instance, or the recorded failure rethrown unchanged (`Registry.Outcome`). The real helper may wrap the failure before rethrowing it.
- Scenarios.LoadInFreshContexts: child loads are functions and cannot create objects, so a property whose loaded value is a nested composite holds the same reference in both loads. In the source, each context instantiates nested composites afresh. The scenario states distinct instances for the top-level object only.
- Threads and blocking. `SettableFuture` waiting and the happens-before between owner and waiters are left out. The registry has sequential semantics, and `Valid()` requires every cell to be settled between calls. So a waiter never meets a pending cell, and the cyclic-graph deadlock is not modelled.
- Object instantiation (`getVitalizer().newInstance`) is a fresh allocation, and an `instantiable` predicate says whether the factory fails. The field values a fresh instance starts with are not modelled: an unassigned field reads as null.
- The Java distinction between `Exception` and `Error` is not modelled. `populate` wraps only `Exception`, and in this model every child failure is wrapped.
- Exact exception message text. Errors carry the names the messages contain.
- Map iteration order in the schema output (`HashMap`, `LinkedHashMap`) is not modelled. Key order is modelled only for the top-level map of a save, and nested nodes returned by child adapters are unordered maps.
- SortedMaps.Put: orders keys by Dafny characters (Unicode scalar values). `String.compareTo` compares UTF-16 code units, so the two orders differ for keys containing supplementary characters.
- The unused `parent` argument of `fromConfigNode` is omitted.
- The value of `Configuration.UUID_KEY` is taken as `"_.uuid"`. `Configuration.java` is not part of this model, and no proof depends on the value.
- Annotation tags are a sequence of strings rendered as a list of string nodes. The UI order is an unbounded integer; no arithmetic is done on it.
