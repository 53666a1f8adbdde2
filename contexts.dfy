/**
 * The collaborators the adapter calls but does not define: property
 * introspection, the property accessor, the object factory and the adapters
 * it delegates child properties to. Each is a function supplied by the
 * caller; none of them touches the identity registry.
 */
module Contexts {
  import opened Wrappers
  import opened ConfigTypes

  /** What a load may call besides the identity registry. */
  datatype LoadCapabilities = LoadCapabilities(
    /** the configurable properties of a class, in declaration order */
    fields: ClassRef -> seq<Descriptor>,
    /** the child adapter's conversion of the property out of the parent map node */
    decodeChild: (Descriptor, map<string, Node>) -> Result<Value, Error>,
    /** whether the accessor can assign the named field of an object of that class */
    canSet: (ClassRef, string, Value) -> bool,
    /** whether the object factory can create a bare instance of the class */
    instantiable: ClassRef -> bool)

  /** What a save may call. */
  datatype SavingContext = SavingContext(
    fields: ClassRef -> seq<Descriptor>,
    /** whether the accessor can read the named field of an object of that class */
    canGet: (ClassRef, string) -> bool,
    /** the child adapter's node for a field value; None when it adds no entry */
    encodeChild: (Descriptor, Value) -> Result<Option<Node>, Error>)

  /** The three ways normalizing a literal can end. */
  datatype NormalizeOutcome =
    | Normalized(node: Node)
    | CastFailure
    | NormalizeFailure(error: Error)

  /** The adapter a property is delegated to, as seen by schema generation. */
  datatype ChildAdapter = ChildAdapter(
    normalize: Node -> NormalizeOutcome,
    /** the child's own schema for the property; None when it has none */
    schema: Result<Option<map<string, Node>>, Error>)

  /** What schema generation may call. */
  datatype ProcessingContext = ProcessingContext(
    fields: ClassRef -> seq<Descriptor>,
    lookup: Descriptor -> Result<ChildAdapter, Error>)
}
