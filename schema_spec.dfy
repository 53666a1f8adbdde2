/**
 * What the schema of a composite class is: a wrapper naming the class, and one
 * metadata map per property, built from the property's annotation and then
 * overwritten key by key with the child adapter's own schema.
 */
module SchemaSpec {
  import opened Wrappers
  import opened ConfigTypes
  import opened Contexts

  /** The class-wide flag: some descriptor declares a nonzero UI order. */
  predicate IncludeOrder(descs: seq<Descriptor>)
  {
    exists i | 0 <= i < |descs| :: descs[i].order != 0
  }

  function TagNodes(tags: seq<string>): (ns: seq<Node>)
    ensures |ns| == |tags| && forall i | 0 <= i < |tags| :: ns[i] == Str(tags[i])
  {
    if tags == [] then [] else [Str(tags[0])] + TagNodes(tags[1..])
  }

  /** The keys the composite adapter itself may set on a property's metadata. */
  const CommonKeys: set<string> := {"title", "description", "default", "tags", "uiOrder", "uiGroup"}

  /**
   * The metadata the composite adapter sets for one property, before the
   * child's schema is merged in. Normalizing the declared default may fail:
   * a cast failure falls back to 0, any other failure aborts.
   */
  function CommonMetadata(d: Descriptor, includeOrder: bool, child: ChildAdapter): (r: Result<map<string, Node>, Error>)
    ensures r.Err? <==> d.defaultValue.Some? && child.normalize(Str(d.defaultValue.value)).NormalizeFailure?
    ensures r.Err? ==> r.error == child.normalize(Str(d.defaultValue.value)).error
    ensures r.Ok? ==> r.value.Keys <= CommonKeys
    ensures r.Ok? ==> (("title" in r.value <==> d.labelText != "")
                       && ("title" in r.value ==> r.value["title"] == Str(d.labelText)))
    ensures r.Ok? ==> (("description" in r.value <==> d.description != "")
                       && ("description" in r.value ==> r.value["description"] == Str(d.description)))
    ensures r.Ok? ==> (("tags" in r.value <==> |d.tags| > 0)
                       && ("tags" in r.value ==> r.value["tags"] == List(TagNodes(d.tags))))
    ensures r.Ok? ==> (("uiOrder" in r.value <==> includeOrder)
                       && ("uiOrder" in r.value ==> r.value["uiOrder"] == Num(d.order)))
    ensures r.Ok? ==> "uiGroup" in r.value && r.value["uiGroup"] == Str(d.group)
    ensures r.Ok? ==> ("default" in r.value <==> d.defaultValue.Some?)
    ensures r.Ok? && d.defaultValue.Some? ==>
      match child.normalize(Str(d.defaultValue.value))
      case Normalized(n) => r.value["default"] == n
      case CastFailure => r.value["default"] == Num(0)
      case NormalizeFailure(_) => false
  {
    var m0: map<string, Node> := map[];
    var m1 := if d.labelText != "" then m0["title" := Str(d.labelText)] else m0;
    var m2 := if d.description != "" then m1["description" := Str(d.description)] else m1;
    var m3: Result<map<string, Node>, Error> :=
      if d.defaultValue.None? then Ok(m2)
      else match child.normalize(Str(d.defaultValue.value))
        case Normalized(n) => Ok(m2["default" := n])
        case CastFailure => Ok(m2["default" := Num(0)])
        case NormalizeFailure(e) => Err(e);
    match m3
    case Err(e) => Err(e)
    case Ok(m) =>
      var m4 := if |d.tags| > 0 then m["tags" := List(TagNodes(d.tags))] else m;
      var m5 := if includeOrder then m4["uiOrder" := Num(d.order)] else m4;
      Ok(m5["uiGroup" := Str(d.group)])
  }

  /**
   * The full metadata of one property: look up its adapter, build the common
   * metadata, then merge the child's schema in, the child's keys winning.
   */
  function PropertyMetadata(d: Descriptor, includeOrder: bool, ctx: ProcessingContext): (r: Result<map<string, Node>, Error>)
    ensures r.Ok? <==> ctx.lookup(d).Ok?
                       && CommonMetadata(d, includeOrder, ctx.lookup(d).value).Ok?
                       && ctx.lookup(d).value.schema.Ok?
    ensures r.Ok? ==>
      var common := CommonMetadata(d, includeOrder, ctx.lookup(d).value).value;
      var childSchema := ctx.lookup(d).value.schema.value;
      && (childSchema.None? ==> r.value == common)
      && (childSchema.Some? ==>
            && r.value.Keys == common.Keys + childSchema.value.Keys
            && (forall k | k in childSchema.value :: r.value[k] == childSchema.value[k])
            && (forall k | k in common && k !in childSchema.value :: r.value[k] == common[k]))
  {
    match ctx.lookup(d)
    case Err(e) => Err(e)
    case Ok(child) =>
      match CommonMetadata(d, includeOrder, child)
      case Err(e) => Err(e)
      case Ok(common) =>
        match child.schema
        case Err(e) => Err(e)
        case Ok(None) => Ok(common)
        case Ok(Some(cs)) => Ok(common + cs)
  }

  /** The properties map: each property's metadata under its annotated name, in order. */
  function MetadataFrom(acc: map<string, Node>, descs: seq<Descriptor>, includeOrder: bool, ctx: ProcessingContext): Result<map<string, Node>, Error>
    decreases |descs|
  {
    if descs == [] then Ok(acc)
    else match PropertyMetadata(descs[0], includeOrder, ctx)
      case Err(e) => Err(e)
      case Ok(m) => MetadataFrom(acc[descs[0].annotatedName := Map(m)], descs[1..], includeOrder, ctx)
  }

  /** The schema of a composite class. */
  function Schema(cls: ClassRef, ctx: ProcessingContext): Result<Node, Error>
  {
    var descs := ctx.fields(cls);
    match MetadataFrom(map[], descs, IncludeOrder(descs), ctx)
    case Err(e) => Err(e)
    case Ok(props) =>
      Ok(Map(map["properties" := Map(props), "type" := Str("object"), "class" := Str(cls.simpleName)]))
  }

  /** The properties map fails exactly when some property's metadata fails. */
  lemma {:induction false} MetadataOk(acc: map<string, Node>, descs: seq<Descriptor>, includeOrder: bool, ctx: ProcessingContext)
    ensures MetadataFrom(acc, descs, includeOrder, ctx).Ok?
        <==> forall i | 0 <= i < |descs| :: PropertyMetadata(descs[i], includeOrder, ctx).Ok?
    decreases |descs|
  {
    if descs != [] {
      var d, rest := descs[0], descs[1..];
      match PropertyMetadata(d, includeOrder, ctx)
      case Err(e) =>
      case Ok(m) =>
        MetadataOk(acc[d.annotatedName := Map(m)], rest, includeOrder, ctx);
        assert forall i | 0 <= i < |rest| :: rest[i] == descs[i + 1];
        assert (forall i | 0 <= i < |descs| :: PropertyMetadata(descs[i], includeOrder, ctx).Ok?)
            <== (forall i | 0 <= i < |rest| :: PropertyMetadata(rest[i], includeOrder, ctx).Ok?) by {
          forall i | 0 < i < |descs| ensures descs[i] == rest[i - 1] { }
        }
    }
  }

  /**
   * A properties map that does not fail has one key per annotated name, holding
   * the metadata of the last descriptor with that name, besides the keys it
   * started with.
   */
  lemma {:induction false} MetadataEntries(acc: map<string, Node>, descs: seq<Descriptor>, includeOrder: bool, ctx: ProcessingContext)
    requires forall i | 0 <= i < |descs| :: PropertyMetadata(descs[i], includeOrder, ctx).Ok?
    ensures MetadataFrom(acc, descs, includeOrder, ctx).Ok?
    ensures MetadataFrom(acc, descs, includeOrder, ctx).value.Keys == acc.Keys + AnnotatedNames(descs)
    ensures forall i | 0 <= i < |descs| && LastForName(descs, i) ::
      MetadataFrom(acc, descs, includeOrder, ctx).value[descs[i].annotatedName]
        == Map(PropertyMetadata(descs[i], includeOrder, ctx).value)
    ensures forall k | k in acc && k !in AnnotatedNames(descs) ::
      MetadataFrom(acc, descs, includeOrder, ctx).value[k] == acc[k]
    decreases |descs|
  {
    if descs != [] {
      var d, rest := descs[0], descs[1..];
      var m := PropertyMetadata(d, includeOrder, ctx).value;
      var acc' := acc[d.annotatedName := Map(m)];
      assert MetadataFrom(acc, descs, includeOrder, ctx) == MetadataFrom(acc', rest, includeOrder, ctx);
      assert forall i | 0 <= i < |rest| :: rest[i] == descs[i + 1];
      MetadataEntries(acc', rest, includeOrder, ctx);
      AnnotatedNamesCons(descs);
      var out := MetadataFrom(acc', rest, includeOrder, ctx).value;
      forall i | 0 <= i < |descs| && LastForName(descs, i)
        ensures out[descs[i].annotatedName] == Map(PropertyMetadata(descs[i], includeOrder, ctx).value)
      {
        if i == 0 {
          assert d.annotatedName !in AnnotatedNames(rest) by {
            forall j | 0 <= j < |rest| ensures rest[j].annotatedName != d.annotatedName {
              assert rest[j] == descs[j + 1];
            }
          }
        } else {
          assert rest[i - 1] == descs[i];
          assert LastForName(rest, i - 1) by {
            forall j | i - 1 < j < |rest| ensures rest[j].annotatedName != rest[i - 1].annotatedName {
              assert rest[j] == descs[j + 1];
            }
          }
        }
      }
    }
  }

  /**
   * The schema has exactly the keys "type" (the string "object"), "class"
   * (the simple class name) and "properties" (a map with one entry per
   * annotated name); it fails exactly when some property's metadata fails.
   */
  lemma SchemaShape(cls: ClassRef, ctx: ProcessingContext)
    ensures var descs := ctx.fields(cls);
      Schema(cls, ctx).Ok? <==> forall i | 0 <= i < |descs| :: PropertyMetadata(descs[i], IncludeOrder(descs), ctx).Ok?
    ensures Schema(cls, ctx).Ok? ==>
      var s := Schema(cls, ctx).value;
      && s.Map?
      && s.entries.Keys == {"type", "class", "properties"}
      && s.entries["type"] == Str("object")
      && s.entries["class"] == Str(cls.simpleName)
      && s.entries["properties"].Map?
      && s.entries["properties"].entries.Keys == AnnotatedNames(ctx.fields(cls))
  {
    var descs := ctx.fields(cls);
    MetadataOk(map[], descs, IncludeOrder(descs), ctx);
    if Schema(cls, ctx).Ok? {
      MetadataEntries(map[], descs, IncludeOrder(descs), ctx);
    }
  }

  /** Each property's entry in the schema is the metadata of the last descriptor with its annotated name. */
  lemma SchemaEntry(cls: ClassRef, ctx: ProcessingContext, i: nat)
    requires Schema(cls, ctx).Ok?
    requires i < |ctx.fields(cls)| && LastForName(ctx.fields(cls), i)
    ensures var descs := ctx.fields(cls);
      && PropertyMetadata(descs[i], IncludeOrder(descs), ctx).Ok?
      && Schema(cls, ctx).value.Map? && "properties" in Schema(cls, ctx).value.entries
      && Schema(cls, ctx).value.entries["properties"].Map?
      && descs[i].annotatedName in Schema(cls, ctx).value.entries["properties"].entries
      && Schema(cls, ctx).value.entries["properties"].entries[descs[i].annotatedName]
           == Map(PropertyMetadata(descs[i], IncludeOrder(descs), ctx).value)
  {
    var descs := ctx.fields(cls);
    MetadataOk(map[], descs, IncludeOrder(descs), ctx);
    MetadataEntries(map[], descs, IncludeOrder(descs), ctx);
    assert descs[i] in descs;
  }

  /** No child adapter of these descriptors puts its own "uiOrder" into its schema. */
  ghost predicate ChildrenLeaveOrder(descs: seq<Descriptor>, ctx: ProcessingContext)
  {
    forall i | 0 <= i < |descs| ::
      ctx.lookup(descs[i]).Ok? && ctx.lookup(descs[i]).value.schema.Ok? &&
      (ctx.lookup(descs[i]).value.schema.value.Some? ==> "uiOrder" !in ctx.lookup(descs[i]).value.schema.value.value)
  }

  /**
   * All or nothing: unless a child schema sets it itself, "uiOrder" appears on
   * every property's metadata when some descriptor declares a nonzero order,
   * and on none otherwise; when it appears it holds the property's own order.
   */
  lemma UiOrderAllOrNothing(cls: ClassRef, ctx: ProcessingContext)
    requires Schema(cls, ctx).Ok?
    requires ChildrenLeaveOrder(ctx.fields(cls), ctx)
    ensures Schema(cls, ctx).value.Map? && "properties" in Schema(cls, ctx).value.entries
    ensures Schema(cls, ctx).value.entries["properties"].Map?
    ensures var descs := ctx.fields(cls);
      var props := Schema(cls, ctx).value.entries["properties"].entries;
      forall i | 0 <= i < |descs| && LastForName(descs, i) ::
        && descs[i].annotatedName in props
        && props[descs[i].annotatedName].Map?
        && ("uiOrder" in props[descs[i].annotatedName].entries <==> IncludeOrder(descs))
        && (IncludeOrder(descs) ==> props[descs[i].annotatedName].entries["uiOrder"] == Num(descs[i].order))
  {
    var descs := ctx.fields(cls);
    SchemaShape(cls, ctx);
    forall i | 0 <= i < |descs| && LastForName(descs, i)
      ensures var props := Schema(cls, ctx).value.entries["properties"].entries;
        && descs[i].annotatedName in props
        && props[descs[i].annotatedName].Map?
        && ("uiOrder" in props[descs[i].annotatedName].entries <==> IncludeOrder(descs))
        && (IncludeOrder(descs) ==> props[descs[i].annotatedName].entries["uiOrder"] == Num(descs[i].order))
    {
      SchemaEntry(cls, ctx, i);
    }
  }
}
