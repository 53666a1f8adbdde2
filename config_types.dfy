/**
 * The values that cross the boundaries of the composite (reflective) adapter:
 * config nodes, class references, property descriptors, configuration objects
 * and the errors the adapter raises.
 */
module ConfigTypes {
  import opened Wrappers

  /** A config node: the generic tree of maps, lists and scalars. */
  datatype Node =
    | Null
    | Str(s: string)
    | Num(n: int)
    | Bool(b: bool)
    | List(items: seq<Node>)
    | Map(entries: map<string, Node>)

  /** The reserved key under which a map node carries its identity (UUID). */
  const UuidKey: string := "_.uuid"

  /** A Java class, by its fully qualified name and its simple name. */
  datatype ClassRef = ClassRef(name: string, simpleName: string)

  /**
   * One configurable property of a class: the field name, the name it has in
   * the config node, its declared type and the traits of its annotation.
   * `defaultValue` is None where the annotation leaves the "no default" sentinel.
   */
  datatype Descriptor = Descriptor(
    name: string,
    annotatedName: string,
    propertyType: ClassRef,
    labelText: string,
    description: string,
    defaultValue: Option<string>,
    tags: seq<string>,
    order: int,
    group: string)

  /** The exceptions the adapter raises or passes on. */
  datatype Error =
      /** the node handed to the loader is not a map; names the target class */
    | NotAMap(className: string)
      /** the identity key holds something other than a string */
    | MalformedUuid(value: Node)
      /** loading one property failed: annotated name, field name, simple class name, cause */
    | LoadPropertyError(annotatedName: string, fieldName: string, simpleClassName: string, cause: Error)
      /** saving one property failed: field name, simple class name, cause */
    | SavePropertyError(fieldName: string, simpleClassName: string, cause: Error)
      /** the object factory could not create an instance of the class */
    | InstantiationFailed(className: string)
      /** the property accessor could not assign the field */
    | SetterFailed(fieldName: string)
      /** the property accessor could not read the field */
    | GetterFailed(fieldName: string)
      /** an exception raised inside another adapter or collaborator */
    | Foreign(message: string)

  /**
   * A configuration object. Its runtime class is fixed at creation; `props`
   * holds the fields assigned so far (a field not in the map keeps the value
   * the object factory gave it).
   */
  class ConfObject {
    const cls: ClassRef
    var props: map<string, Value>

    /** A bare, freshly allocated instance of `cls`. */
    constructor (cls: ClassRef)
      ensures this.cls == cls && props == map[]
    {
      this.cls := cls;
      props := map[];
    }
  }

  /** What a child adapter produces for one field: null, a plain value or an object. */
  datatype Value = NullValue | Plain(node: Node) | Ref(obj: ConfObject)

  /** The value a getter reads for `field` from the fields assigned so far. */
  function FieldValue(props: map<string, Value>, field: string): Value
  {
    if field in props then props[field] else NullValue
  }

  /** The field names a sequence of descriptors names. */
  function FieldNames(descs: seq<Descriptor>): set<string>
  {
    set i | 0 <= i < |descs| :: descs[i].name
  }

  /** The annotated names (the config node keys) a sequence of descriptors names. */
  function AnnotatedNames(descs: seq<Descriptor>): set<string>
  {
    set i | 0 <= i < |descs| :: descs[i].annotatedName
  }

  /** No later descriptor names the same field as descriptor `i`. */
  ghost predicate LastForField(descs: seq<Descriptor>, i: nat)
    requires i < |descs|
  {
    forall j | i < j < |descs| :: descs[j].name != descs[i].name
  }

  /** No later descriptor has the same annotated name as descriptor `i`. */
  ghost predicate LastForName(descs: seq<Descriptor>, i: nat)
    requires i < |descs|
  {
    forall j | i < j < |descs| :: descs[j].annotatedName != descs[i].annotatedName
  }

  lemma {:induction false} AnnotatedNamesCons(descs: seq<Descriptor>)
    requires descs != []
    ensures AnnotatedNames(descs) == {descs[0].annotatedName} + AnnotatedNames(descs[1..])
  {
    var rest := descs[1..];
    forall f | f in AnnotatedNames(descs) ensures f in {descs[0].annotatedName} + AnnotatedNames(rest) {
      var i :| 0 <= i < |descs| && descs[i].annotatedName == f;
      if i > 0 { assert rest[i - 1] == descs[i]; }
    }
    forall f | f in AnnotatedNames(rest) ensures f in AnnotatedNames(descs) {
      var i :| 0 <= i < |rest| && rest[i].annotatedName == f;
      assert descs[i + 1] == rest[i];
    }
  }
}
