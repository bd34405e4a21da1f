/**
 * `ListSectionAdapter`: the adapter that asks a (possibly nested) data source
 * for its sections, flattens them, and keeps every section controller's
 * `context` pointing at the adapter's collection context.
 */
module SectionAdapter {
  import opened Wrappers

  /** Identity of a data source (`SectionAdapterDataSource` object). */
  type SourceId = nat
  /** A section's `id` (an `AnyHashable`). */
  type SectionId = string
  /** A section's `model` (an `Any`). */
  type Model = string

  /** A data source together with what `objects(for:)` answers for the adapter. */
  datatype DataSource = DataSource(source: SourceId, objects: seq<SectionObject>)

  /** `SectionDataSourceObject`: a section leaf or a nested data source. */
  datatype SectionObject =
    | SectionLeaf(id: SectionId, model: Model)
    | NestedDataSource(nested: DataSource)

  /** A section leaf together with the data source that listed it directly. */
  datatype Leaf = Leaf(owner: SourceId, id: SectionId, model: Model)

  // ---------------------------------------------------------------------------
  // Reference definition: recursive pre-order, left-to-right flattening
  // ---------------------------------------------------------------------------

  function FlattenObject(owner: SourceId, o: SectionObject): seq<Leaf>
    decreases o
  {
    match o
    case SectionLeaf(id, model) => [Leaf(owner, id, model)]
    case NestedDataSource(ds) => FlattenObjects(ds.source, ds.objects)
  }

  function FlattenObjects(owner: SourceId, objs: seq<SectionObject>): seq<Leaf>
    decreases objs
  {
    if objs == [] then [] else FlattenObject(owner, objs[0]) + FlattenObjects(owner, objs[1..])
  }

  /** The sections a data source stands for, in display order. */
  function Flatten(ds: DataSource): seq<Leaf> {
    FlattenObjects(ds.source, ds.objects)
  }

  // ---------------------------------------------------------------------------
  // Independent descriptions of the leaves: how many and which
  // ---------------------------------------------------------------------------

  /** Number of `.section` objects in `o`: one for a leaf, those below it for a data source. */
  function CountLeavesOf(o: SectionObject): nat
    decreases o
  {
    match o
    case SectionLeaf(_, _) => 1
    case NestedDataSource(ds) => CountLeaves(ds.objects)
  }

  /** Number of `.section` objects anywhere below a list of objects. */
  function CountLeaves(objs: seq<SectionObject>): nat
    decreases objs
  {
    if objs == [] then 0 else CountLeavesOf(objs[0]) + CountLeaves(objs[1..])
  }

  /** The `.section` objects in `o`, each paired with the data source listing it directly. */
  function LeafSetOf(owner: SourceId, o: SectionObject): set<Leaf>
    decreases o
  {
    match o
    case SectionLeaf(id, model) => {Leaf(owner, id, model)}
    case NestedDataSource(ds) => LeafSet(ds.source, ds.objects)
  }

  /** Every `.section` object below `objs`, paired with the data source listing it directly. */
  function LeafSet(owner: SourceId, objs: seq<SectionObject>): set<Leaf>
    decreases objs
  {
    if objs == [] then {} else LeafSetOf(owner, objs[0]) + LeafSet(owner, objs[1..])
  }

  lemma {:induction false} FlattenObjectLength(owner: SourceId, o: SectionObject)
    ensures |FlattenObject(owner, o)| == CountLeavesOf(o)
    decreases o
  {
    match o
    case SectionLeaf(_, _) =>
    case NestedDataSource(ds) => FlattenObjectsLength(ds.source, ds.objects);
  }

  lemma {:induction false} FlattenObjectsLength(owner: SourceId, objs: seq<SectionObject>)
    ensures |FlattenObjects(owner, objs)| == CountLeaves(objs)
    decreases objs
  {
    if objs != [] {
      FlattenObjectLength(owner, objs[0]);
      FlattenObjectsLength(owner, objs[1..]);
    }
  }

  lemma {:induction false} FlattenObjectLeaves(owner: SourceId, o: SectionObject)
    ensures forall l :: l in FlattenObject(owner, o) <==> l in LeafSetOf(owner, o)
    decreases o
  {
    match o
    case SectionLeaf(_, _) =>
    case NestedDataSource(ds) => FlattenObjectsLeaves(ds.source, ds.objects);
  }

  lemma {:induction false} FlattenObjectsLeaves(owner: SourceId, objs: seq<SectionObject>)
    ensures forall l :: l in FlattenObjects(owner, objs) <==> l in LeafSet(owner, objs)
    decreases objs
  {
    if objs != [] {
      FlattenObjectLeaves(owner, objs[0]);
      FlattenObjectsLeaves(owner, objs[1..]);
    }
  }

  /** Flattening a list split in two gives the two flattenings one after the other. */
  lemma {:induction false} FlattenObjectsAppend(owner: SourceId, a: seq<SectionObject>, b: seq<SectionObject>)
    ensures FlattenObjects(owner, a + b) == FlattenObjects(owner, a) + FlattenObjects(owner, b)
    decreases a
  {
    if a != [] {
      assert (a + b)[1..] == a[1..] + b;
      FlattenObjectsAppend(owner, a[1..], b);
    } else {
      assert a + b == b;
    }
  }

  /** The number of sections equals the number of `.section` leaves in the tree. */
  lemma FlattenLength(ds: DataSource)
    ensures |Flatten(ds)| == CountLeaves(ds.objects)
  {
    FlattenObjectsLength(ds.source, ds.objects);
  }

  /**
   * A leaf appears in the flattening iff some data source in the tree lists it
   * directly, and it carries that data source as owner.
   */
  lemma FlattenLeaves(ds: DataSource)
    ensures forall l :: l in Flatten(ds) <==> l in LeafSet(ds.source, ds.objects)
  {
    FlattenObjectsLeaves(ds.source, ds.objects);
  }

  /** Roots keep the order given: the sections of `a + b` are those of `a` followed by those of `b`. */
  lemma RootsInOrder(source: SourceId, a: seq<SectionObject>, b: seq<SectionObject>)
    ensures Flatten(DataSource(source, a + b)) == Flatten(DataSource(source, a)) + Flatten(DataSource(source, b))
  {
    FlattenObjectsAppend(source, a, b);
  }

  /** A nested data source contributes its own sections, expanded in place. */
  lemma NestedExpandedInPlace(source: SourceId, a: seq<SectionObject>, inner: DataSource, b: seq<SectionObject>)
    ensures Flatten(DataSource(source, a + [NestedDataSource(inner)] + b))
            == Flatten(DataSource(source, a)) + Flatten(inner) + Flatten(DataSource(source, b))
  {
    FlattenObjectsAppend(source, a + [NestedDataSource(inner)], b);
    FlattenObjectsAppend(source, a, [NestedDataSource(inner)]);
    assert FlattenObjects(source, [NestedDataSource(inner)]) == Flatten(inner) by {
      assert [NestedDataSource(inner)][1..] == [];
    }
  }

  // ---------------------------------------------------------------------------
  // Sections and section controllers
  // ---------------------------------------------------------------------------

  /** The adapter's `CollectionContext`; only its identity matters here. */
  class CollectionContext {
    constructor () {}
  }

  /** A section controller; the adapter updates its `context` in place. */
  class SectionController {
    var context: CollectionContext?

    constructor ()
      ensures context == null
    {
      context := null;
    }
  }

  /** `Section(id:model:controller:)`. */
  datatype Section = Section(id: SectionId, model: Model, controller: SectionController)

  /** The section built for a leaf, with the controller its owning data source hands out. */
  function SectionOf(l: Leaf, makeController: (SourceId, Model) -> SectionController): Section {
    Section(l.id, l.model, makeController(l.owner, l.model))
  }

  /** The sections built for a list of leaves, one per leaf and in the same order. */
  function Materialize(leaves: seq<Leaf>, makeController: (SourceId, Model) -> SectionController): (r: seq<Section>)
    ensures |r| == |leaves|
    ensures forall i :: 0 <= i < |leaves| ==> r[i] == SectionOf(leaves[i], makeController)
  {
    seq(|leaves|, i requires 0 <= i < |leaves| => SectionOf(leaves[i], makeController))
  }

  /** The controllers of a list of sections. */
  function Controllers(sections: seq<Section>): set<SectionController> {
    set i | 0 <= i < |sections| :: sections[i].controller
  }

  // ---------------------------------------------------------------------------
  // The explicit stack used by `querySections`
  // ---------------------------------------------------------------------------

  /** A stack entry: an object and the data source that listed it. */
  datatype StackEntry = StackEntry(owner: SourceId, entry: SectionObject)

  /** The leaves still to come from a stack whose top is its last element. */
  function FlattenStack(stack: seq<StackEntry>): seq<Leaf> {
    if stack == [] then []
    else
      var top := stack[|stack| - 1];
      FlattenObject(top.owner, top.entry) + FlattenStack(stack[..|stack| - 1])
  }

  function ObjectSize(o: SectionObject): nat
    decreases o
  {
    match o
    case SectionLeaf(_, _) => 1
    case NestedDataSource(ds) => 1 + ObjectsSize(ds.objects)
  }

  function ObjectsSize(objs: seq<SectionObject>): nat
    decreases objs
  {
    if objs == [] then 0 else ObjectSize(objs[0]) + ObjectsSize(objs[1..])
  }

  /** Total number of objects on and below a stack: the loop's termination measure. */
  function StackSize(stack: seq<StackEntry>): nat {
    if stack == [] then 0
    else ObjectSize(stack[|stack| - 1].entry) + StackSize(stack[..|stack| - 1])
  }

  /** Pushes `objs` in reverse, so that `objs[0]` ends on top. */
  method PushReversed(stack: seq<StackEntry>, owner: SourceId, objs: seq<SectionObject>)
    returns (pushed: seq<StackEntry>)
    ensures FlattenStack(pushed) == FlattenObjects(owner, objs) + FlattenStack(stack)
    ensures StackSize(pushed) == ObjectsSize(objs) + StackSize(stack)
  {
    pushed := stack;
    var k := |objs|;
    while k > 0
      invariant 0 <= k <= |objs|
      invariant FlattenStack(pushed) == FlattenObjects(owner, objs[k..]) + FlattenStack(stack)
      invariant StackSize(pushed) == ObjectsSize(objs[k..]) + StackSize(stack)
    {
      k := k - 1;
      assert objs[k..][1..] == objs[k + 1..];
      assert (pushed + [StackEntry(owner, objs[k])])[..|pushed|] == pushed;
      pushed := pushed + [StackEntry(owner, objs[k])];
    }
    assert objs[0..] == objs;
  }

  // ---------------------------------------------------------------------------
  // The adapter
  // ---------------------------------------------------------------------------

  /** `CollectionUpdate<[Section]>`: the data to install; its `setData` is the adapter's `SetCollectionViewSections`. */
  datatype CollectionUpdate = CollectionUpdate(data: seq<Section>)

  /** The default update: whatever the old sections were, the new data is installed as it is. */
  function CalculateUpdate(oldData: seq<Section>, newData: seq<Section>): (u: CollectionUpdate)
    ensures u.data == newData
  {
    CollectionUpdate(newData)
  }

  class ListSectionAdapter {
    const collectionContext: CollectionContext
    /** `dataSource.sectionController(with: model, for: self)`, for the data source with that identity. */
    const makeController: (SourceId, Model) -> SectionController
    var dataSource: Option<DataSource>
    var collectionViewSections: seq<Section>
    var allowReorderingBetweenDifferentSections: bool

    constructor (makeController: (SourceId, Model) -> SectionController)
      ensures fresh(collectionContext) && this.makeController == makeController
      ensures dataSource == None && collectionViewSections == []
      ensures !allowReorderingBetweenDifferentSections
    {
      collectionContext := new CollectionContext();
      this.makeController := makeController;
      dataSource := None;
      collectionViewSections := [];
      allowReorderingBetweenDifferentSections := false;
    }

    /** The sections the data source `ds` stands for. */
    ghost function Queried(ds: DataSource): seq<Section>
      reads this
    {
      Materialize(Flatten(ds), makeController)
    }

    /** The controllers `InvalidateDataSource` may hand the context to. */
    ghost function QueriedControllers(ds: Option<DataSource>): set<SectionController>
      reads this
    {
      if ds.Some? then Controllers(Queried(ds.value)) else {}
    }

    /**
     * `querySections(from:)`: pops (data source, object) pairs off a LIFO stack,
     * emitting a section for a leaf and pushing a nested data source's objects
     * in reverse; equal to the recursive pre-order flattening.
     */
    method QuerySections(ds: DataSource) returns (sections: seq<Section>)
      ensures sections == Queried(ds)
    {
      sections := [];
      ghost var leaves: seq<Leaf> := [];
      var stack := PushReversed([], ds.source, ds.objects);
      while stack != []
        invariant leaves + FlattenStack(stack) == Flatten(ds)
        invariant |sections| == |leaves|
        invariant forall i :: 0 <= i < |leaves| ==> sections[i] == SectionOf(leaves[i], makeController)
        decreases StackSize(stack)
      {
        var top := stack[|stack| - 1];
        stack := stack[..|stack| - 1];
        match top.entry {
          case SectionLeaf(id, model) =>
            var controller := makeController(top.owner, model);
            sections := sections + [Section(id, model, controller)];
            leaves := leaves + [Leaf(top.owner, id, model)];
          case NestedDataSource(nested) =>
            stack := PushReversed(stack, nested.source, nested.objects);
        }
      }
    }

    /**
     * Assigning `collectionViewSections`: `willSet` clears the context of every
     * old controller, `didSet` hands the collection context to every new one.
     */
    method SetCollectionViewSections(newValue: seq<Section>)
      modifies this`collectionViewSections, Controllers(collectionViewSections), Controllers(newValue)
      ensures collectionViewSections == newValue
      ensures forall i :: 0 <= i < |newValue| ==> newValue[i].controller.context == collectionContext
      ensures forall c :: c in Controllers(old(collectionViewSections)) && c !in Controllers(newValue) ==> c.context == null
    {
      var oldValue := collectionViewSections;
      var i := 0;
      while i < |oldValue|
        invariant 0 <= i <= |oldValue|
        invariant collectionViewSections == oldValue
        invariant forall j :: 0 <= j < i ==> oldValue[j].controller.context == null
      {
        oldValue[i].controller.context := null;
        i := i + 1;
      }
      collectionViewSections := newValue;
      i := 0;
      while i < |newValue|
        invariant 0 <= i <= |newValue|
        invariant collectionViewSections == newValue
        invariant forall j :: 0 <= j < i ==> newValue[j].controller.context == collectionContext
        invariant forall c :: c in Controllers(oldValue) && c !in Controllers(newValue) ==> c.context == null
      {
        newValue[i].controller.context := collectionContext;
        i := i + 1;
      }
    }

    /** The `sections` setter: computes the update and lets the context apply it, which installs its data. */
    method SetSections(newValue: seq<Section>)
      modifies this`collectionViewSections, Controllers(collectionViewSections), Controllers(newValue)
      ensures collectionViewSections == newValue
      ensures forall i :: 0 <= i < |newValue| ==> newValue[i].controller.context == collectionContext
      ensures forall c :: c in Controllers(old(collectionViewSections)) && c !in Controllers(newValue) ==> c.context == null
    {
      var update := CalculateUpdate(collectionViewSections, newValue);
      SetCollectionViewSections(update.data);
    }

    /** Re-queries the data source; without one, nothing changes. */
    method InvalidateDataSource()
      modifies this`collectionViewSections, Controllers(collectionViewSections), QueriedControllers(dataSource)
      ensures dataSource.None? ==> unchanged(this) && unchanged(Controllers(collectionViewSections))
      ensures dataSource.Some? ==> collectionViewSections == Queried(dataSource.value)
      ensures dataSource.Some? ==>
                forall i :: 0 <= i < |collectionViewSections| ==> collectionViewSections[i].controller.context == collectionContext
      ensures dataSource.Some? ==>
                forall c :: c in Controllers(old(collectionViewSections)) && c !in Controllers(collectionViewSections) ==> c.context == null
    {
      if dataSource.None? {
        return;
      }
      var sections := QuerySections(dataSource.value);
      SetSections(sections);
    }

    /** Assigning `dataSource`; its `didSet` invalidates. */
    method SetDataSource(ds: Option<DataSource>)
      modifies this`dataSource, this`collectionViewSections, Controllers(collectionViewSections), QueriedControllers(ds)
      ensures dataSource == ds
      ensures ds.None? ==> collectionViewSections == old(collectionViewSections) && unchanged(Controllers(collectionViewSections))
      ensures ds.Some? ==> collectionViewSections == Queried(ds.value)
      ensures ds.Some? ==>
                forall i :: 0 <= i < |collectionViewSections| ==> collectionViewSections[i].controller.context == collectionContext
      ensures ds.Some? ==>
                forall c :: c in Controllers(old(collectionViewSections)) && c !in Controllers(collectionViewSections) ==> c.context == null
    {
      dataSource := ds;
      InvalidateDataSource();
    }
  }
}
