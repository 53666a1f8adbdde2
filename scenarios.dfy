/**
 * Callers of the adapter: what two loads of one identified node can rely on,
 * within one loading context and across two.
 */
module Scenarios {
  import opened Wrappers
  import opened ConfigTypes
  import opened Contexts
  import opened Registry
  import opened Adapter
  import LoadSpec

  /**
   * Within one loading context, two stateless loads of a node carrying an
   * identity have one outcome: the same instance or the same failure, and the
   * identity has had one owner.
   */
  method LoadSameIdentityTwice(adapter: ReflectiveAdapter, node: Node, property: Descriptor, ctx: LoadingContext)
    returns (first: Result<Option<ConfObject>, Error>, second: Result<Option<ConfObject>, Error>)
    requires adapter.provided == null && ctx.Valid()
    requires node.Map? && LoadSpec.UuidOf(node.entries).Uuid?
    modifies ctx
    ensures ctx.Valid()
    ensures first == second
    ensures LoadSpec.UuidOf(node.entries).id in ctx.cells
    ensures ctx.owned == old(ctx.owned)
         || ctx.owned == old(ctx.owned) + [LoadSpec.UuidOf(node.entries).id]
  {
    first := adapter.FromConfigNode(node, property, ctx);
    second := adapter.FromConfigNode(node, property, ctx);
  }

  /**
   * Two top-level loads of the same identified node, each with a fresh
   * loading context, create two different instances with the same fields.
   */
  method LoadInFreshContexts(node: Node, property: Descriptor, caps: LoadCapabilities)
    returns (first: Result<Option<ConfObject>, Error>, second: Result<Option<ConfObject>, Error>)
    requires node.Map? && LoadSpec.UuidOf(node.entries).Uuid?
    ensures first.Ok? <==> second.Ok?
    ensures first.Ok? ==>
      && first.value.Some? && second.value.Some?
      && first.value.value != second.value.value
      && first.value.value.props == second.value.value.props
  {
    var adapter := new ReflectiveAdapter.Stateless();
    var ctx1 := new LoadingContext(caps);
    first := adapter.FromConfigNode(node, property, ctx1);
    var ctx2 := new LoadingContext(caps);
    second := adapter.FromConfigNode(node, property, ctx2);
  }
}
