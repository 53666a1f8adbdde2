/**
 * The composite adapter: loads a class's instance from a map node, saves an
 * instance to a key-sorted map node, and describes the class's schema.
 */
module Adapter {
  import opened Wrappers
  import opened ConfigTypes
  import opened Contexts
  import opened Registry
  import opened SortedMaps
  import LoadSpec
  import SaveSpec
  import SchemaSpec

  /** A waiter's result: the settled cell's instance, or its failure. */
  function Lift(o: Result<ConfObject, Error>): Result<Option<ConfObject>, Error>
  {
    match o
    case Ok(obj) => Ok(Some(obj))
    case Err(e) => Err(e)
  }

  /** A stateless load of these entries creates an instance: no identity, or an identity not yet registered. */
  ghost predicate CreatesInstance(entries: map<string, Node>, cells: map<string, Cell>)
  {
    var u := LoadSpec.UuidOf(entries);
    u.NoUuid? || (u.Uuid? && u.id !in cells)
  }

  class ReflectiveAdapter {
    /** The instance a stateful adapter populates; null for a stateless adapter. */
    const provided: ConfObject?

    /** A stateless adapter: every load creates (or shares) an instance. */
    constructor Stateless()
      ensures provided == null
    {
      provided := null;
    }

    /** A stateful adapter: every load populates `obj` (a null `obj` makes it stateless). */
    constructor Stateful(obj: ConfObject?)
      ensures provided == obj
    {
      provided := obj;
    }

    /** The objects a load may change besides newly created ones. */
    function Provided(): set<object>
    {
      if provided == null then {} else {provided}
    }

    /**
     * Load an instance of the property's type from `node`.
     * A null node loads as null and a node that is not a map fails.
     * Stateful: populate the provided instance and return it, without looking at
     * the identity key or the registry.
     * Stateless: a malformed identity fails before anything is created; no
     * identity creates and populates one instance; an identity already
     * registered returns what its cell holds, creating nothing; otherwise this
     * call owns the identity: it creates and populates the instance and settles
     * the cell with the instance it returns or the failure it raises.
     */
    method FromConfigNode(node: Node, property: Descriptor, ctx: LoadingContext) returns (r: Result<Option<ConfObject>, Error>)
      requires ctx.Valid()
      modifies ctx, Provided()
      ensures ctx.Valid()
      ensures node.Null? ==> r == Ok(None) && unchanged(ctx) && unchanged(Provided())
      ensures !node.Null? && !node.Map? ==>
        r == Err(NotAMap(property.propertyType.name)) && unchanged(ctx) && unchanged(Provided())
      ensures node.Map? && provided != null ==>
        && unchanged(ctx)
        && var out := LoadSpec.PopulateFrom(old(provided.props),
                         LoadSpec.Walk(ctx.caps, property.propertyType, provided.cls, node.entries),
                         ctx.caps.fields(property.propertyType));
           && provided.props == out.props
           && r == if out.error.None? then Ok(Some(provided)) else Err(out.error.value)
      ensures node.Map? && provided == null && LoadSpec.UuidOf(node.entries).Malformed? ==>
        r == Err(MalformedUuid(LoadSpec.UuidOf(node.entries).raw)) && unchanged(ctx)
      ensures node.Map? && provided == null && LoadSpec.UuidOf(node.entries).NoUuid? ==>
        unchanged(ctx)
      ensures node.Map? && provided == null && LoadSpec.UuidOf(node.entries).Uuid?
              && LoadSpec.UuidOf(node.entries).id in old(ctx.cells) ==>
        unchanged(ctx)
      ensures node.Map? && provided == null && LoadSpec.UuidOf(node.entries).Uuid?
              && LoadSpec.UuidOf(node.entries).id in old(ctx.cells) ==>
        r == Lift(Outcome(old(ctx.cells)[LoadSpec.UuidOf(node.entries).id]))
      ensures node.Map? && provided == null && CreatesInstance(node.entries, old(ctx.cells)) ==>
        var cls := property.propertyType;
        var out := LoadSpec.PopulateFrom(map[], LoadSpec.Walk(ctx.caps, cls, cls, node.entries), ctx.caps.fields(cls));
        if !ctx.caps.instantiable(cls) then r == Err(InstantiationFailed(cls.name))
        else if out.error.Some? then r == Err(out.error.value)
        else r.Ok? && r.value.Some? && fresh(r.value.value)
             && r.value.value.cls == cls && r.value.value.props == out.props
      ensures node.Map? && provided == null && LoadSpec.UuidOf(node.entries).Uuid?
              && LoadSpec.UuidOf(node.entries).id !in old(ctx.cells) ==>
        var id := LoadSpec.UuidOf(node.entries).id;
        && ctx.owned == old(ctx.owned) + [id]
        && (r.Ok? ==> r.value.Some? && ctx.cells == old(ctx.cells)[id := Resolved(r.value.value)])
        && (r.Err? ==> ctx.cells == old(ctx.cells)[id := Failed(r.error)])
    {
      if node.Null? {
        return Ok(None);
      }
      var cls := property.propertyType;
      if !node.Map? {
        return Err(NotAMap(cls.name));
      }
      var entries := node.entries;
      if provided != null {
        var err := Populate(entries, ctx.caps, cls, provided);
        return if err.Some? then Err(err.value) else Ok(Some(provided));
      }
      match LoadSpec.UuidOf(entries)
      case Malformed(raw) =>
        return Err(MalformedUuid(raw));
      case NoUuid =>
        r := NewPopulated(entries, ctx.caps, cls);
      case Uuid(id) =>
        var existing := ctx.RegisterIfAbsent(id);
        if existing.Some? {
          return Lift(Outcome(existing.value));
        }
        assert id !in ctx.owned;
        ctx.owned := ctx.owned + [id];
        r := NewPopulated(entries, ctx.caps, cls);
        var accepted;
        if r.Ok? {
          accepted := ctx.Settle(id, Resolved(r.value.value));
        } else {
          accepted := ctx.Settle(id, Failed(r.error));
        }
    }

    /** Create a bare instance of `cls` and populate it; the creation or the walk may fail. */
    static method NewPopulated(entries: map<string, Node>, caps: LoadCapabilities, cls: ClassRef) returns (r: Result<Option<ConfObject>, Error>)
      ensures var out := LoadSpec.PopulateFrom(map[], LoadSpec.Walk(caps, cls, cls, entries), caps.fields(cls));
        if !caps.instantiable(cls) then r == Err(InstantiationFailed(cls.name))
        else if out.error.Some? then r == Err(out.error.value)
        else r.Ok? && r.value.Some? && fresh(r.value.value)
             && r.value.value.cls == cls && r.value.value.props == out.props
    {
      if !caps.instantiable(cls) {
        return Err(InstantiationFailed(cls.name));
      }
      var obj := new ConfObject(cls);
      var err := Populate(entries, caps, cls, obj);
      return if err.Some? then Err(err.value) else Ok(Some(obj));
    }

    /**
     * Assign every configurable field of `obj` from the map node, in descriptor
     * order; the first property that fails ends the walk with an error naming it
     * and the class, the fields assigned before it staying assigned.
     */
    static method Populate(entries: map<string, Node>, caps: LoadCapabilities, cls: ClassRef, obj: ConfObject) returns (err: Option<Error>)
      modifies obj
      ensures LoadSpec.PopulateFrom(old(obj.props), LoadSpec.Walk(caps, cls, obj.cls, entries), caps.fields(cls))
              == LoadSpec.Populated(obj.props, err)
    {
      var descs := caps.fields(cls);
      ghost var w := LoadSpec.Walk(caps, cls, obj.cls, entries);
      var i := 0;
      while i < |descs|
        invariant 0 <= i <= |descs|
        invariant LoadSpec.PopulateFrom(old(obj.props), w, descs) == LoadSpec.PopulateFrom(obj.props, w, descs[i..])
      {
        var d := descs[i];
        assert descs[i..][1..] == descs[i + 1..];
        var decoded := caps.decodeChild(d, entries);
        if decoded.Err? {
          return Some(LoadPropertyError(d.annotatedName, d.name, cls.simpleName, decoded.error));
        }
        if !caps.canSet(obj.cls, d.name, decoded.value) {
          return Some(LoadPropertyError(d.annotatedName, d.name, cls.simpleName, SetterFailed(d.name)));
        }
        obj.props := obj.props[d.name := decoded.value];
        i := i + 1;
      }
      return None;
    }

    /**
     * Save `obj` as a map node, walking the descriptors of its runtime class;
     * the entries come out strictly sorted by key. A null object saves as null.
     */
    method ToConfigNode(obj: ConfObject?, property: Descriptor, ctx: SavingContext) returns (r: Result<Option<seq<(string, Node)>>, Error>)
      ensures obj == null ==> r == Ok(None)
      ensures obj != null ==>
        var spec := SaveSpec.SaveFrom(map[], ctx, obj.cls, obj.props, ctx.fields(obj.cls));
        && (spec.Err? ==> r == Err(spec.error))
        && (spec.Ok? ==> r.Ok? && r.value.Some? && Sorted(r.value.value) && ToMap(r.value.value) == spec.value)
    {
      if obj == null {
        return Ok(None);
      }
      var cls := obj.cls;
      var descs := ctx.fields(cls);
      var configNode: seq<(string, Node)> := [];
      var i := 0;
      while i < |descs|
        invariant 0 <= i <= |descs|
        invariant Sorted(configNode)
        invariant SaveSpec.SaveFrom(map[], ctx, cls, obj.props, descs)
                  == SaveSpec.SaveFrom(ToMap(configNode), ctx, cls, obj.props, descs[i..])
      {
        var d := descs[i];
        assert descs[i..][1..] == descs[i + 1..];
        if !ctx.canGet(cls, d.name) {
          return Err(SavePropertyError(d.name, cls.simpleName, GetterFailed(d.name)));
        }
        var child := ctx.encodeChild(d, FieldValue(obj.props, d.name));
        if child.Err? {
          return Err(SavePropertyError(d.name, cls.simpleName, child.error));
        }
        if child.value.Some? {
          configNode := Put(configNode, d.annotatedName, child.value.value);
        }
        i := i + 1;
      }
      return Ok(Some(configNode));
    }

    /**
     * The schema of the property's type: first decide whether any descriptor
     * declares a UI order, then build each property's metadata.
     */
    method GetSchema(property: Descriptor, ctx: ProcessingContext) returns (r: Result<Node, Error>)
      ensures r == SchemaSpec.Schema(property.propertyType, ctx)
    {
      var cls := property.propertyType;
      var descs := ctx.fields(cls);
      var includeOrder := false;
      var i := 0;
      while i < |descs|
        invariant 0 <= i <= |descs|
        invariant includeOrder <==> exists j | 0 <= j < i :: descs[j].order != 0
      {
        if descs[i].order != 0 {
          includeOrder := true;
        }
        i := i + 1;
      }
      assert includeOrder == SchemaSpec.IncludeOrder(descs);
      var classMetaData: map<string, Node> := map[];
      i := 0;
      while i < |descs|
        invariant 0 <= i <= |descs|
        invariant SchemaSpec.MetadataFrom(map[], descs, includeOrder, ctx)
                  == SchemaSpec.MetadataFrom(classMetaData, descs[i..], includeOrder, ctx)
      {
        var d := descs[i];
        assert descs[i..][1..] == descs[i + 1..];
        var lookup := ctx.lookup(d);
        if lookup.Err? {
          return Err(lookup.error);
        }
        var childAdapter := lookup.value;
        var meta: map<string, Node> := map[];
        if d.labelText != "" {
          meta := meta["title" := Str(d.labelText)];
        }
        if d.description != "" {
          meta := meta["description" := Str(d.description)];
        }
        if d.defaultValue.Some? {
          match childAdapter.normalize(Str(d.defaultValue.value)) {
            case Normalized(n) =>
              meta := meta["default" := n];
            case CastFailure =>
              meta := meta["default" := Num(0)];
            case NormalizeFailure(e) =>
              return Err(e);
          }
        }
        if |d.tags| > 0 {
          meta := meta["tags" := List(SchemaSpec.TagNodes(d.tags))];
        }
        if includeOrder {
          meta := meta["uiOrder" := Num(d.order)];
        }
        meta := meta["uiGroup" := Str(d.group)];
        match childAdapter.schema {
          case Err(e) =>
            return Err(e);
          case Ok(None) =>
          case Ok(Some(childMetaData)) =>
            meta := meta + childMetaData;
        }
        classMetaData := classMetaData[d.annotatedName := Map(meta)];
        i := i + 1;
      }
      return Ok(Map(map["properties" := Map(classMetaData), "type" := Str("object"), "class" := Str(cls.simpleName)]));
    }

    /**
     * The adapter's own normalization of a literal: a cast to a map, so a map
     * or null passes through unchanged and anything else is a cast failure.
     */
    static function Normalize(n: Node): (r: NormalizeOutcome)
      ensures r.Normalized? <==> n.Map? || n.Null?
      ensures r.Normalized? ==> r.node == n
      ensures !r.Normalized? ==> r == CastFailure
    {
      if n.Map? || n.Null? then Normalized(n) else CastFailure
    }
  }

  /**
   * A composite property's declared default is a string literal, which the
   * composite adapter's cast refuses: in its parent's schema it shows as 0.
   */
  lemma CompositeDefaultShowsAsZero(d: Descriptor, includeOrder: bool, schema: Result<Option<map<string, Node>>, Error>)
    requires d.defaultValue.Some?
    ensures var common := SchemaSpec.CommonMetadata(d, includeOrder, ChildAdapter(ReflectiveAdapter.Normalize, schema));
      common.Ok? && "default" in common.value && common.value["default"] == Num(0)
  {
  }
}
