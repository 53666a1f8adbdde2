/**
 * The identity registry of one loading context: a map from UUID to a
 * write-once result cell, with register-if-absent and set-once operations.
 */
module Registry {
  import opened Wrappers
  import opened ConfigTypes
  import opened Contexts

  /** A result cell: not yet settled, settled with an instance, or settled with a failure. */
  datatype Cell = Pending | Resolved(obj: ConfObject) | Failed(error: Error)

  /** What a waiter obtains from a settled cell: the instance, or the very failure recorded. */
  function Outcome(c: Cell): Result<ConfObject, Error>
    requires !c.Pending?
  {
    match c
    case Resolved(o) => Ok(o)
    case Failed(e) => Err(e)
  }

  ghost predicate NoDuplicates(s: seq<string>)
  {
    forall i, j | 0 <= i < j < |s| :: s[i] != s[j]
  }

  /** The state of one top-level load: its collaborators and its identity registry. */
  class LoadingContext {
    const caps: LoadCapabilities
    var cells: map<string, Cell>
    /** The UUIDs whose instance this context has created, in the order it took ownership. */
    ghost var owned: seq<string>

    /**
     * Between calls every cell is settled (an owner settles its cell before it
     * returns), and each UUID has had at most one owner, whose cell is registered.
     */
    ghost predicate Valid()
      reads this
    {
      && (forall u | u in cells :: !cells[u].Pending?)
      && NoDuplicates(owned)
      && (forall i | 0 <= i < |owned| :: owned[i] in cells)
    }

    /** A fresh context: empty registry, nothing owned. */
    constructor (caps: LoadCapabilities)
      ensures Valid()
      ensures this.caps == caps && cells == map[] && owned == []
    {
      this.caps := caps;
      cells := map[];
      owned := [];
    }

    /**
     * Register a fresh pending cell under `uuid` unless one is there already;
     * return the cell that was there. The first writer wins.
     */
    method RegisterIfAbsent(uuid: string) returns (existing: Option<Cell>)
      modifies this
      ensures uuid in old(cells) ==> existing == Some(old(cells)[uuid]) && unchanged(this)
      ensures uuid !in old(cells) ==> existing == None && cells == old(cells)[uuid := Pending]
      ensures owned == old(owned)
    {
      if uuid in cells {
        existing := Some(cells[uuid]);
      } else {
        existing := None;
        cells := cells[uuid := Pending];
      }
    }

    /**
     * Settle the cell under `uuid` with `outcome` (the future's set or
     * setException). A cell that is not pending keeps its content.
     */
    method Settle(uuid: string, outcome: Cell) returns (accepted: bool)
      requires !outcome.Pending?
      modifies this
      ensures accepted <==> uuid in old(cells) && old(cells)[uuid].Pending?
      ensures cells == if accepted then old(cells)[uuid := outcome] else old(cells)
      ensures owned == old(owned)
    {
      accepted := uuid in cells && cells[uuid].Pending?;
      if accepted {
        cells := cells[uuid := outcome];
      }
    }
  }
}
