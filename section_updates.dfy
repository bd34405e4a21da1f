/**
 * `SectionUpdate`: the batch operations a section wants performed, plus two
 * closures (installing the data, deciding on a full reload) that its equality
 * deliberately ignores.
 */
module SectionUpdates {
  import opened Wrappers

  /** A section's id (an `AnyHashable`). */
  type SectionId = string

  /** Identity of a closure that is only stored and handed on (`setData`, `completion`). */
  type ClosureId = nat

  /**
   * `SectionChange`: one item-level change of a batch. Its declaration is not
   * part of this model; these cases are a stand-in, and only its equality matters here.
   */
  datatype SectionChange =
    | Insert(index: int)
    | Delete(index: int)
    | Move(from: int, to: int)
    | Reload(index: int)

  /** `SectionBatchOperation`: the changes of one batch, the data after it, and a completion. */
  datatype SectionBatchOperation<D> = SectionBatchOperation(changes: set<SectionChange>, data: D, completion: Option<ClosureId>)

  datatype SectionUpdate<!D> = SectionUpdate(
    sectionId: SectionId,
    batchOperations: seq<SectionBatchOperation<D>>,
    setData: ClosureId,
    shouldReloadSection: SectionBatchOperation<D> -> bool)

  /** The default `shouldReloadSection`: never reload, perform the batch. */
  function NeverReload<D>(op: SectionBatchOperation<D>): bool {
    false
  }

  /** The `shouldReloadSection` of the data-only initialiser: always reload. */
  function AlwaysReload<D>(op: SectionBatchOperation<D>): bool {
    true
  }

  /** The designated initialiser; `shouldReloadSection` defaults to never reloading. */
  function NewSectionUpdate<D(!new)>(sectionId: SectionId, batchOperations: seq<SectionBatchOperation<D>>, setData: ClosureId,
                               shouldReloadSection: SectionBatchOperation<D> -> bool := NeverReload)
    : (u: SectionUpdate<D>)
    ensures u.sectionId == sectionId && u.batchOperations == batchOperations && u.setData == setData
    ensures forall op :: u.shouldReloadSection(op) == shouldReloadSection(op)
  {
    SectionUpdate(sectionId, batchOperations, setData, shouldReloadSection)
  }

  /** The initialiser from one set of changes: a single batch operation built from them. */
  function NewSectionUpdateWithChanges<D(!new)>(sectionId: SectionId, changes: set<SectionChange>, data: D, setData: ClosureId,
                                          shouldReloadSection: SectionBatchOperation<D> -> bool := NeverReload,
                                          completion: Option<ClosureId> := None)
    : (u: SectionUpdate<D>)
    ensures u.sectionId == sectionId && u.setData == setData
    ensures |u.batchOperations| == 1
    ensures u.batchOperations[0].changes == changes && u.batchOperations[0].data == data
    ensures u.batchOperations[0].completion == completion
    ensures forall op :: u.shouldReloadSection(op) == shouldReloadSection(op)
  {
    var batchOperation := SectionBatchOperation(changes, data, completion);
    NewSectionUpdate(sectionId, [batchOperation], setData, shouldReloadSection)
  }

  /** The data-only initialiser: one batch with no changes, and the section is always reloaded. */
  function NewSectionUpdateWithData<D(!new)>(sectionId: SectionId, data: D, setData: ClosureId,
                                       completion: Option<ClosureId> := None)
    : (u: SectionUpdate<D>)
    ensures u.sectionId == sectionId && u.setData == setData
    ensures |u.batchOperations| == 1
    ensures u.batchOperations[0].changes == {} && u.batchOperations[0].data == data
    ensures u.batchOperations[0].completion == completion
    ensures forall op :: u.shouldReloadSection(op)
  {
    NewSectionUpdateWithChanges(sectionId, {}, data, setData, AlwaysReload, completion)
  }

  /** `SectionBatchOperation` equality: changes and data; a completion closure cannot be compared. */
  predicate BatchOperationEqual<D(==)>(lhs: SectionBatchOperation<D>, rhs: SectionBatchOperation<D>) {
    lhs.changes == rhs.changes && lhs.data == rhs.data
  }

  /** Array equality over batch operations: same length, equal element by element. */
  predicate BatchOperationsEqual<D(==)>(lhs: seq<SectionBatchOperation<D>>, rhs: seq<SectionBatchOperation<D>>) {
    |lhs| == |rhs| && forall i :: 0 <= i < |lhs| ==> BatchOperationEqual(lhs[i], rhs[i])
  }

  /** `SectionUpdate ==`: batch operations and section id; `setData` and `shouldReloadSection` are ignored. */
  predicate Equal<D(==)>(lhs: SectionUpdate<D>, rhs: SectionUpdate<D>)
    ensures lhs == rhs ==> Equal(lhs, rhs)
    ensures Equal(lhs, rhs) ==> lhs.sectionId == rhs.sectionId && |lhs.batchOperations| == |rhs.batchOperations|
  {
    BatchOperationsEqual(lhs.batchOperations, rhs.batchOperations) && lhs.sectionId == rhs.sectionId
  }

  lemma EqualReflexive<D>(u: SectionUpdate<D>)
    ensures Equal(u, u)
  {
  }

  lemma EqualSymmetric<D>(u: SectionUpdate<D>, v: SectionUpdate<D>)
    ensures Equal(u, v) <==> Equal(v, u)
  {
  }

  lemma EqualTransitive<D>(u: SectionUpdate<D>, v: SectionUpdate<D>, w: SectionUpdate<D>)
    ensures Equal(u, v) && Equal(v, w) ==> Equal(u, w)
  {
  }

  /** Updates that differ only in their closures are equal. */
  lemma EqualIgnoresClosures<D>(u: SectionUpdate<D>, setData: ClosureId, shouldReloadSection: SectionBatchOperation<D> -> bool)
    ensures Equal(u, SectionUpdate(u.sectionId, u.batchOperations, setData, shouldReloadSection))
  {
  }

  /** What equality looks at: the id, and each batch's changes and data, in order. */
  function Key<D>(u: SectionUpdate<D>): (SectionId, seq<(set<SectionChange>, D)>) {
    (u.sectionId, seq(|u.batchOperations|, i requires 0 <= i < |u.batchOperations| =>
                        (u.batchOperations[i].changes, u.batchOperations[i].data)))
  }

  /** Two updates are equal exactly when their keys are: closures and completions play no part. */
  lemma EqualIff<D>(u: SectionUpdate<D>, v: SectionUpdate<D>)
    ensures Equal(u, v) <==> Key(u) == Key(v)
  {
    var ku, kv := Key(u).1, Key(v).1;
    if Equal(u, v) {
      assert |ku| == |kv|;
      forall i | 0 <= i < |ku|
        ensures ku[i] == kv[i]
      {
        assert BatchOperationEqual(u.batchOperations[i], v.batchOperations[i]);
      }
      assert ku == kv;
      assert Key(u) == (u.sectionId, ku) && Key(v) == (v.sectionId, kv);
    }
    if Key(u) == Key(v) {
      assert |u.batchOperations| == |ku| == |kv| == |v.batchOperations|;
      forall i | 0 <= i < |u.batchOperations|
        ensures BatchOperationEqual(u.batchOperations[i], v.batchOperations[i])
      {
        assert ku[i] == kv[i];
      }
    }
  }

  /**
   * The data-only update equals the update built from no changes, whatever
   * reload policy and completion that one was given.
   */
  lemma DataOnlyEqualsEmptyChanges<D(!new)>(sectionId: SectionId, data: D, setData: ClosureId, otherSetData: ClosureId,
                                          shouldReloadSection: SectionBatchOperation<D> -> bool,
                                          completion: Option<ClosureId>, otherCompletion: Option<ClosureId>)
    ensures Equal(NewSectionUpdateWithData(sectionId, data, setData, completion),
                  NewSectionUpdateWithChanges(sectionId, {}, data, otherSetData, shouldReloadSection, otherCompletion))
  {
  }

  /** Two single-batch updates for one section are equal iff their changes and data are. */
  lemma ChangesUpdatesEqualIff<D(!new)>(sectionId: SectionId, c1: set<SectionChange>, c2: set<SectionChange>, d1: D, d2: D,
                                      s1: ClosureId, s2: ClosureId)
    ensures Equal(NewSectionUpdateWithChanges(sectionId, c1, d1, s1), NewSectionUpdateWithChanges(sectionId, c2, d2, s2))
            <==> c1 == c2 && d1 == d2
  {
    var u := NewSectionUpdateWithChanges(sectionId, c1, d1, s1);
    var v := NewSectionUpdateWithChanges(sectionId, c2, d2, s2);
    if Equal(u, v) {
      assert BatchOperationEqual(u.batchOperations[0], v.batchOperations[0]);
    }
  }
}
