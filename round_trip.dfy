/**
 * Load and save are inverse on a composite object whose properties each
 * round-trip through their own adapters: saving a freshly loaded instance
 * gives back the node it was loaded from.
 */
module RoundTrip {
  import opened Wrappers
  import opened ConfigTypes
  import opened Contexts
  import opened LoadSpec
  import opened SaveSpec

  /** Every property loads, and its saved form is the node it was loaded from. */
  ghost predicate ChildrenRoundTrip(caps: LoadCapabilities, ctx: SavingContext, cls: ClassRef, entries: map<string, Node>)
  {
    var descs := caps.fields(cls);
    var w := Walk(caps, cls, cls, entries);
    forall i | 0 <= i < |descs| ::
      && descs[i].annotatedName in entries
      && FieldLoad(w, descs[i]).Ok?
      && ctx.canGet(cls, descs[i].name)
      && ctx.encodeChild(descs[i], FieldLoad(w, descs[i]).value) == Ok(Some(entries[descs[i].annotatedName]))
  }

  /** After a walk that does not fail over distinct fields, reading each field gives the value loaded for it. */
  lemma LoadedValues(w: Walk, descs: seq<Descriptor>)
    requires forall i | 0 <= i < |descs| :: LastForField(descs, i)
    requires forall i | 0 <= i < |descs| :: FieldLoad(w, descs[i]).Ok?
    ensures PopulateFrom(map[], w, descs).error.None?
    ensures forall i | 0 <= i < |descs| ::
      FieldValue(PopulateFrom(map[], w, descs).props, descs[i].name) == FieldLoad(w, descs[i]).value
  {
    assert FirstLoadFailure(w, descs).None?;
    PopulateAssigns(map[], w, descs);
    forall i | 0 <= i < |descs|
      ensures FieldValue(PopulateFrom(map[], w, descs).props, descs[i].name) == FieldLoad(w, descs[i]).value
    {
    }
  }

  /**
   * A save over distinct annotated names in which every property puts a node
   * gives exactly the map from each annotated name to its node.
   */
  lemma SavedEntries(ctx: SavingContext, cls: ClassRef, props: map<string, Value>, descs: seq<Descriptor>, entries: map<string, Node>)
    requires forall i | 0 <= i < |descs| :: LastForName(descs, i)
    requires entries.Keys == AnnotatedNames(descs)
    requires forall i | 0 <= i < |descs| ::
      descs[i].annotatedName in entries && FieldSave(ctx, cls, props, descs[i]) == Ok(Some(entries[descs[i].annotatedName]))
    ensures SaveFrom(map[], ctx, cls, props, descs) == Ok(entries)
  {
    assert FirstSaveFailure(ctx, cls, props, descs).None?;
    SaveEntries(map[], ctx, cls, props, descs);
    var saved := SaveFrom(map[], ctx, cls, props, descs).value;
    assert saved.Keys == entries.Keys by {
      forall k | k in entries ensures k in EmittedNames(ctx, cls, props, descs) {
        var i :| 0 <= i < |descs| && descs[i].annotatedName == k;
        assert FieldSave(ctx, cls, props, descs[i]).value.Some?;
      }
    }
    forall k | k in entries ensures saved[k] == entries[k] {
      var i :| 0 <= i < |descs| && descs[i].annotatedName == k;
      assert LastForName(descs, i);
      assert LastToEmit(ctx, cls, props, descs, i);
    }
    assert saved == entries;
  }

  /**
   * A map node whose keys are exactly the annotated names of distinct
   * properties, each of which round-trips on its own, is what saving the
   * instance loaded from it produces.
   */
  lemma LoadThenSave(caps: LoadCapabilities, ctx: SavingContext, cls: ClassRef, entries: map<string, Node>)
    requires ctx.fields(cls) == caps.fields(cls)
    requires forall i | 0 <= i < |caps.fields(cls)| :: LastForField(caps.fields(cls), i)
    requires forall i | 0 <= i < |caps.fields(cls)| :: LastForName(caps.fields(cls), i)
    requires entries.Keys == AnnotatedNames(caps.fields(cls))
    requires ChildrenRoundTrip(caps, ctx, cls, entries)
    ensures var loaded := PopulateFrom(map[], Walk(caps, cls, cls, entries), caps.fields(cls));
      loaded.error.None? && SaveFrom(map[], ctx, cls, loaded.props, caps.fields(cls)) == Ok(entries)
  {
    var descs := caps.fields(cls);
    var w := Walk(caps, cls, cls, entries);
    LoadedValues(w, descs);
    var props := PopulateFrom(map[], w, descs).props;
    forall i | 0 <= i < |descs|
      ensures descs[i].annotatedName in entries
      ensures FieldSave(ctx, cls, props, descs[i]) == Ok(Some(entries[descs[i].annotatedName]))
    {
    }
    SavedEntries(ctx, cls, props, descs, entries);
  }
}
