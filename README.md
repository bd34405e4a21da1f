# SectionKit core, modelled in Dafny

SectionKit builds collection-view screens out of independent section
controllers. This project models the sequential logic under its UIKit glue:

- **`ListSectionAdapter`** (`section_adapter.dfy`, module `SectionAdapter`).
  `querySections` flattens a tree of nested data sources into a flat list of
  `Section(id, model, controller)`. It uses an explicit LIFO stack. The model
  keeps that loop as a method and proves it equal to a recursive, pre-order,
  left-to-right flattening (`Flatten`). The adapter is a class. Assigning
  `collectionViewSections` clears the `context` of every old controller and
  then hands the collection context to every new one. The `sections` setter
  goes through `calculateUpdate`. `invalidateDataSource` re-queries the data
  source, if there is one.
- **Index-path routing of `ListCollectionViewAdapter`**
  (`data_source_routing.dfy`, `prefetch_routing.dfy`, with shared types in
  `index_paths.dfy`). Adapter-wide `(section, item)` paths are checked and
  routed to the owning section controller, with the item as local index.
  Prefetch requests are filtered to valid paths and grouped by section. Each
  group goes to that section's prefetching delegate, if it has one.
- **`SectionUpdate`** (`section_updates.dfy`): its three initialisers and its
  equality, which ignores the two closures.
- **`Error`** (`errors.dfy`): the case-wise `==` and each case's `description`.
- **`TeamMemberSectionViewModel`** from the example app (`team_members.dfy`).
  It is a class holding a list of names, with append, remove-all-equal and a
  delegate notification after each change.

Abstractions:

- Data sources are values: `DataSource(source, objects)`. `source` is the data
  source's identity. `objects` is what `objects(for:)` answers.
- `sectionController(with:for:)` becomes the adapter's `makeController`
  function of (data source identity, model).
- An `IndexPath` is a `seq<int>`. `isSectionIndexValid(for:)` means: exactly
  two indices, and the section index is in range. `IndexPath.isValid` only
  asks for exactly two indices and cannot see the sections. The prefetch
  pipeline filters on the full check instead: a path whose section is out of
  range would reach `dataSourcePrefetchingDelegate(at:)`, which answers nil for
  it, so the section receives nothing either way.
- A metatype in an `Error` payload is a `TypeName(id, printed)`. `==` compares
  the type's identity `id`; a description shows only its unqualified name
  `printed`, which two distinct types may share.
- Cells, supplementary views and delegate calls become values that name the
  section controller and the `SectionIndexPath` they were routed to.
- Closures that are only stored (`setData`, `completion`) are identity tokens.
  `shouldReloadSection` is a Dafny function value.

Where the behaviour of a type outside the modelled files matters, the model
assumes the following:

- `Stack` is a LIFO stack. The model keeps it as a `seq` whose last element is
  the top. `Stack(rootObjects.reversed())` is modelled as pushing the reversed
  roots one by one, which gives the same stack.
- `SectionIndexPath.init(_:)` takes the item as the local index.
- `group(by:)` keeps input order within a group. Its dispatch order is not
  modelled: the result is a map from section index to the call.
- `SectionBatchOperation ==` compares `changes` and `data`.
- `dataSourcePrefetchingDelegate(at:)` answers the section's delegate, and
  nil for a section index out of range.
- `collectionContext.apply(update:)` invokes the update's `setData` with its
  data. That installs the data through the `collectionViewSections` setter.
- Reading `IndexPath.item` from a path that does not hold exactly two indices
  stops the program (a Foundation precondition). `MoveItemAt` models this as
  `Trap`.

## Model

| member | source | states |
|---|---|---|
| SectionAdapter.ListSectionAdapter.QuerySections | Sources/SectionKit/SectionAdapter/ListSectionAdapter/ListSectionAdapter.swift:96-115 | the stack loop returns exactly the recursive pre-order, left-to-right flattening of the data-source tree. Each section carries its leaf's id and model, and the controller of the data source that listed it directly |
| SectionAdapter.PushReversed | Sources/SectionKit/SectionAdapter/ListSectionAdapter/ListSectionAdapter.swift:109-111 | pushing objects in reverse puts their flattening ahead of what was already on the stack. The stack's size measure grows by exactly their size, which gives termination |
| SectionAdapter.FlattenLength | Sources/SectionKit/SectionAdapter/ListSectionAdapter/ListSectionAdapter.swift:101-111 | the number of sections equals the number of `.section` leaves in the tree; no `.dataSource` node yields a section |
| SectionAdapter.FlattenObjectsLength | Sources/SectionKit/SectionAdapter/ListSectionAdapter/ListSectionAdapter.swift:101-111 | the same count for any list of objects, by structural induction |
| SectionAdapter.FlattenObjectLength | Sources/SectionKit/SectionAdapter/ListSectionAdapter/ListSectionAdapter.swift:102-111 | a leaf yields one section, and a nested data source yields as many as the leaves below it |
| SectionAdapter.FlattenLeaves | Sources/SectionKit/SectionAdapter/ListSectionAdapter/ListSectionAdapter.swift:100-111 | a (data source, id, model) triple is in the result iff that data source lists that `.section` directly somewhere in the tree |
| SectionAdapter.FlattenObjectsLeaves | Sources/SectionKit/SectionAdapter/ListSectionAdapter/ListSectionAdapter.swift:100-111 | the same membership characterisation for any list of objects |
| SectionAdapter.FlattenObjectLeaves | Sources/SectionKit/SectionAdapter/ListSectionAdapter/ListSectionAdapter.swift:102-111 | the same membership characterisation for one object |
| SectionAdapter.FlattenObjectsAppend | Sources/SectionKit/SectionAdapter/ListSectionAdapter/ListSectionAdapter.swift:97-114 | flattening a concatenation gives the two flattenings in order |
| SectionAdapter.RootsInOrder | Sources/SectionKit/SectionAdapter/ListSectionAdapter/ListSectionAdapter.swift:98-99 | root objects contribute their sections in the order given |
| SectionAdapter.NestedExpandedInPlace | Sources/SectionKit/SectionAdapter/ListSectionAdapter/ListSectionAdapter.swift:108-111 | a nested data source's sections appear exactly where it stands among its siblings |
| SectionAdapter.Materialize | Sources/SectionKit/SectionAdapter/ListSectionAdapter/ListSectionAdapter.swift:102-107 | one section per leaf, in order, each with the leaf's id and model and the owning data source's controller |
| SectionAdapter.ListSectionAdapter.SetCollectionViewSections | Sources/SectionKit/SectionAdapter/ListSectionAdapter/ListSectionAdapter.swift:56-63 | the new list is installed and every new controller's context is the collection context. A controller only in the old list ends with a nil context |
| SectionAdapter.CalculateUpdate | Sources/SectionKit/SectionAdapter/ListSectionAdapter/ListSectionAdapter.swift:83-87 | the default update carries exactly the new data, whatever the old data was |
| SectionAdapter.ListSectionAdapter.SetSections | Sources/SectionKit/SectionAdapter/ListSectionAdapter/ListSectionAdapter.swift:65-72 | setting `sections` through the computed update installs exactly the new list, with the same context hand-over |
| SectionAdapter.ListSectionAdapter.InvalidateDataSource | Sources/SectionKit/SectionAdapter/ListSectionAdapter/ListSectionAdapter.swift:91-94 | without a data source nothing changes. With one, the displayed sections become the flattening of its tree |
| SectionAdapter.ListSectionAdapter.SetDataSource | Sources/SectionKit/SectionAdapter/ListSectionAdapter/ListSectionAdapter.swift:47-49 | assigning the data source re-queries it: the new sections are the flattening of its tree, every new controller gets the collection context and a controller only in the old list ends with a nil context. Assigning nil keeps the displayed sections and their contexts |
| SectionAdapter.ListSectionAdapter.constructor | Sources/SectionKit/SectionAdapter/ListSectionAdapter/ListSectionAdapter.swift:22-89 | a new adapter has no data source and no sections, and `allowReorderingBetweenDifferentSections` is false |
| DataSourceRouting.NumberOfSections | SectionKit/Sources/CollectionViewAdapter/Generic/ListCollectionViewAdapter+UICollectionViewDataSource.swift:4-6 | the number of sections is the number of displayed sections |
| DataSourceRouting.NumberOfItemsInSection | SectionKit/Sources/CollectionViewAdapter/Generic/ListCollectionViewAdapter+UICollectionViewDataSource.swift:8-15 | the controller's item count for an index in range, and 0 otherwise |
| DataSourceRouting.CellForItemAt | SectionKit/Sources/CollectionViewAdapter/Generic/ListCollectionViewAdapter+UICollectionViewDataSource.swift:17-26 | a controller cell exactly for a valid path, routed to the path's section with the item as local index. Otherwise a placeholder |
| DataSourceRouting.ViewForSupplementaryElementOfKind | SectionKit/Sources/CollectionViewAdapter/Generic/ListCollectionViewAdapter+UICollectionViewDataSource.swift:28-51 | the header kind gives the controller's header and the footer kind its footer, both routed as for cells. Any other kind or an invalid path gives a placeholder |
| DataSourceRouting.CanMoveItemAt | SectionKit/Sources/CollectionViewAdapter/Generic/ListCollectionViewAdapter+UICollectionViewDataSource.swift:53-62 | false for an invalid path. Otherwise the owning controller's answer at the local index |
| DataSourceRouting.MoveItemAt | SectionKit/Sources/CollectionViewAdapter/Generic/ListCollectionViewAdapter+UICollectionViewDataSource.swift:64-82 | nothing is forwarded iff the source is invalid, or the move leaves a valid section while cross-section reordering is off. A forward is one call to the source section's controller, with the items as local indices |
| DataSourceRouting.MoveInsideSectionForwarded | SectionKit/Sources/CollectionViewAdapter/Generic/ListCollectionViewAdapter+UICollectionViewDataSource.swift:71-81 | a move inside one valid section is always forwarded, whatever the reordering flag |
| DataSourceRouting.MoveForwardedOnlyInsideSection | SectionKit/Sources/CollectionViewAdapter/Generic/ListCollectionViewAdapter+UICollectionViewDataSource.swift:71-75 | with cross-section reordering off, a forwarded move has a valid destination in the source's section |
| DataSourceRouting.IndexTitles | SectionKit/Sources/CollectionViewAdapter/Generic/ListCollectionViewAdapter+UICollectionViewDataSource.swift:84-86 | there are no index titles |
| DataSourceRouting.IndexPathForIndexTitle | SectionKit/Sources/CollectionViewAdapter/Generic/ListCollectionViewAdapter+UICollectionViewDataSource.swift:88-93 | any title maps to item 0 of section 0 |
| PrefetchRouting.FilterValid | SectionKit/Sources/CollectionViewAdapter/Generic/ListCollectionViewAdapter+UICollectionViewDataSourcePrefetching.swift:6 | only valid paths pass the filter |
| PrefetchRouting.GroupOf | SectionKit/Sources/CollectionViewAdapter/Generic/ListCollectionViewAdapter+UICollectionViewDataSourcePrefetching.swift:6 | a section's group holds only paths of that section, taken from the input |
| PrefetchRouting.PrefetchItemsAt | SectionKit/Sources/CollectionViewAdapter/Generic/ListCollectionViewAdapter+UICollectionViewDataSourcePrefetching.swift:5-13 | only sections in range are called, each with one `prefetchItems(at:)` call on its own delegate and a non-empty batch |
| PrefetchRouting.CancelPrefetchingForItemsAt | SectionKit/Sources/CollectionViewAdapter/Generic/ListCollectionViewAdapter+UICollectionViewDataSourcePrefetching.swift:15-23 | only sections in range are called, each with one `cancelPrefetchingForItems(at:)` call on its own delegate and a non-empty batch |
| PrefetchRouting.OnlyValidPathsOfTheSection | SectionKit/Sources/CollectionViewAdapter/Generic/ListCollectionViewAdapter+UICollectionViewDataSourcePrefetching.swift:6-11 | no invalid path is forwarded. The batch for section `s` goes to `s`'s delegate and holds only paths of section `s`, each with its item as local index |
| PrefetchRouting.WhoReceives | SectionKit/Sources/CollectionViewAdapter/Generic/ListCollectionViewAdapter+UICollectionViewDataSourcePrefetching.swift:6-9 | a section receives a call iff it is in range, has a delegate and was asked for a valid path. A section without a delegate is skipped and the others are still served |
| PrefetchRouting.BatchSize | SectionKit/Sources/CollectionViewAdapter/Generic/ListCollectionViewAdapter+UICollectionViewDataSourcePrefetching.swift:10 | the number of `SectionIndexPath`s forwarded to a section equals the number of valid requests for it |
| PrefetchRouting.ForwardedExactlyOnce | SectionKit/Sources/CollectionViewAdapter/Generic/ListCollectionViewAdapter+UICollectionViewDataSourcePrefetching.swift:6-11 | a requested valid path whose section has a delegate is forwarded to that section as often as it was requested, and never to another section |
| PrefetchRouting.FilterValidCount | SectionKit/Sources/CollectionViewAdapter/Generic/ListCollectionViewAdapter+UICollectionViewDataSourcePrefetching.swift:6 | filtering keeps every valid path as often as it occurs and drops every invalid one |
| PrefetchRouting.GroupOfCount | SectionKit/Sources/CollectionViewAdapter/Generic/ListCollectionViewAdapter+UICollectionViewDataSourcePrefetching.swift:6 | grouping keeps every path of the section as often as it occurs and no other |
| PrefetchRouting.RoutedLength | SectionKit/Sources/CollectionViewAdapter/Generic/ListCollectionViewAdapter+UICollectionViewDataSourcePrefetching.swift:6 | a section's group has as many entries as there are valid requests for it |
| PrefetchRouting.LocalPathsCount | SectionKit/Sources/CollectionViewAdapter/Generic/ListCollectionViewAdapter+UICollectionViewDataSourcePrefetching.swift:10 | converting to `SectionIndexPath`s keeps the multiplicity of each path |
| PrefetchRouting.CancelRoutesLikePrefetch | SectionKit/Sources/CollectionViewAdapter/Generic/ListCollectionViewAdapter+UICollectionViewDataSourcePrefetching.swift:15-23 | cancel-prefetch reaches the same sections and delegates with the same paths as prefetch |
| SectionUpdates.NewSectionUpdate | Sources/SectionKit/Section/SectionUpdate/SectionUpdate.swift:21-29 | id, batch operations and `setData` are stored unchanged. By default `shouldReloadSection` is false for every operation |
| SectionUpdates.NewSectionUpdateWithChanges | Sources/SectionKit/Section/SectionUpdate/SectionUpdate.swift:34-47 | exactly one batch operation, built from the given changes, data and completion, with the given reload policy |
| SectionUpdates.NewSectionUpdateWithData | Sources/SectionKit/Section/SectionUpdate/SectionUpdate.swift:50-60 | exactly one batch operation with no changes, and `shouldReloadSection` is true for every operation |
| SectionUpdates.Equal | Sources/SectionKit/Section/SectionUpdate/SectionUpdate.swift:63-66 | identical updates are equal, and equal updates have the same id and the same number of batch operations |
| SectionUpdates.EqualIff | Sources/SectionKit/Section/SectionUpdate/SectionUpdate.swift:63-66 | two updates are equal iff they agree on the projection `Key`: the id and each batch's changes and data, in order. Closures and completions play no part |
| SectionUpdates.EqualIgnoresClosures | Sources/SectionKit/Section/SectionUpdate/SectionUpdate.swift:63-66 | `setData` and `shouldReloadSection` play no part in equality |
| SectionUpdates.EqualReflexive | Sources/SectionKit/Section/SectionUpdate/SectionUpdate.swift:64-65 | every update equals itself |
| SectionUpdates.EqualSymmetric | Sources/SectionKit/Section/SectionUpdate/SectionUpdate.swift:64-65 | equality is symmetric |
| SectionUpdates.EqualTransitive | Sources/SectionKit/Section/SectionUpdate/SectionUpdate.swift:64-65 | equality is transitive |
| SectionUpdates.DataOnlyEqualsEmptyChanges | Sources/SectionKit/Section/SectionUpdate/SectionUpdate.swift:50-66 | a data-only update equals the update built from no changes with the same data, whatever closures either has |
| SectionUpdates.ChangesUpdatesEqualIff | Sources/SectionKit/Section/SectionUpdate/SectionUpdate.swift:34-66 | two single-batch updates for one section are equal iff their changes and their data are equal |
| Errors.Equals | SectionKit/Sources/Error/Error.swift:42-80 | equal errors are of the same case, and every error equals an identical one |
| Errors.EqualsIffSameValue | SectionKit/Sources/Error/Error.swift:42-80 | `==` holds iff both errors are the same case with equal payloads |
| Errors.EqualsReflexive | SectionKit/Sources/Error/Error.swift:42-80 | every error equals itself |
| Errors.EqualsSymmetric | SectionKit/Sources/Error/Error.swift:42-80 | `==` is symmetric |
| Errors.DifferentCasesNeverEqual | SectionKit/Sources/Error/Error.swift:77-78 | errors of different cases are never equal |
| Errors.PayloadFreeCasesEqual | SectionKit/Sources/Error/Error.swift:63-67 | the two payload-free cases equal themselves |
| Errors.NotImplementedEqualsByName | SectionKit/Sources/Error/Error.swift:44-45 | `notImplemented` errors are equal iff their function names' descriptions are |
| Errors.MoveErrorsEqualIff | SectionKit/Sources/Error/Error.swift:59-61 | move errors need both source and destination sections to match |
| Errors.SameNameDistinctTypes | SectionKit/Sources/Error/Error.swift:69-75 | two distinct types with the same printed name give unequal type-mismatch errors, though their descriptions are the same |
| Errors.Description | SectionKit/Sources/Error/Error.swift:84-116 | every case has a non-empty message |
| Errors.DescriptionNamesPayload | SectionKit/Sources/Error/Error.swift:84-116 | each message shows its error's payload: the function name, the element kind, the index path, the section indices and both types' printed names |
| Errors.MissingDataSourceNamesIndex | SectionKit/Sources/Error/Error.swift:92-93 | the description of `missingDataSource(section: n)` is its fixed sentence around the decimal `n`, and `n` reads back from it |
| Errors.MissingDataSourceDescriptionsDiffer | SectionKit/Sources/Error/Error.swift:92-93 | different missing sections get different descriptions |
| Errors.IntToStringRoundTrip | SectionKit/Sources/Error/Error.swift:93 | the decimal rendering of an `Int` in a description reads back as that number |
| Errors.NotImplementedNamesFunction | SectionKit/Sources/Error/Error.swift:86-87 | the description of `notImplemented` starts with the function's name |
| TeamMembers.TeamMemberSectionViewModel.constructor | SectionKit-Example/SectionKit-Example/ViewModel/Profile/SectionController/TeamMemberSectionViewModel.swift:45-47 | a new view model's members are Marco, Niclas, Tom, Flo and Deniz, and no delegate is set |
| TeamMembers.TeamMemberSectionViewModel.Add | SectionKit-Example/SectionKit-Example/ViewModel/Profile/SectionController/TeamMemberSectionViewModel.swift:28-31 | the member is appended at the end with the earlier members unchanged. A delegate, if set, is sent the updated list |
| TeamMembers.TeamMemberSectionViewModel.Remove | SectionKit-Example/SectionKit-Example/ViewModel/Profile/SectionController/TeamMemberSectionViewModel.swift:33-37 | every occurrence is removed and the member is absent afterwards. Removing an absent member changes nothing. A delegate, if set, is sent the updated list |
| TeamMembers.TeamMemberSectionViewModel.Members | SectionKit-Example/SectionKit-Example/ViewModel/Profile/SectionController/TeamMemberSectionViewModel.swift:40 | `members` is exactly the stored list |
| TeamMembers.RemoveAll | SectionKit-Example/SectionKit-Example/ViewModel/Profile/SectionController/TeamMemberSectionViewModel.swift:34 | the result is no longer than the list, and holds only names of the list other than the removed member |
| TeamMembers.RemoveAllCounts | SectionKit-Example/SectionKit-Example/ViewModel/Profile/SectionController/TeamMemberSectionViewModel.swift:34 | after removal the member occurs zero times, and every other name occurs as often as before |
| TeamMembers.RemoveAbsentIsIdentity | SectionKit-Example/SectionKit-Example/ViewModel/Profile/SectionController/TeamMemberSectionViewModel.swift:34 | removing an absent member changes nothing |
| TeamMembers.RemoveAllAppend | SectionKit-Example/SectionKit-Example/ViewModel/Profile/SectionController/TeamMemberSectionViewModel.swift:34 | removal acts on each part of a concatenation separately, so the kept names stay in their relative order |
| TeamMembers.RemoveAllSingle | SectionKit-Example/SectionKit-Example/ViewModel/Profile/SectionController/TeamMemberSectionViewModel.swift:34 | a single name other than the member is kept, and the member itself is dropped |

## Left out

- UIKit itself is not modelled. This covers cell and supplementary-view dequeuing, the placeholder views and cells (modelled as tokens), the `dataSource`/`delegate`/drag wiring in `init`, `#available` checks and `assertionFailure` side effects.
- Weak references (`dataSource`, `delegate`, `scrollViewDelegate`, the `[weak self]` captures) are modelled as ordinary references.
- `objects(for:)` is modelled as a fixed tree. A data source that lists itself, directly or through others, would make `querySections` run forever; a finite tree cannot express that.
- The body of `collectionContext.apply(update:)` is not part of this model. It is taken to install the update's data through `collectionViewSections`.
- `cachedIndexTitles` and `scrollViewDelegate` are declared but have no behaviour in the modelled code.
- `SingleSectionCollectionViewAdapter+UICollectionViewDragDelegate.swift` forwards each drag call to the drag delegate of the section controller at the path. Beyond that lookup it computes nothing of its own, so it is not modelled.
- `BaseSectionFlowDelegateTests.swift` and `CollectionViewContextSizeTests.swift` check floating-point sizes and insets computed by code that is not part of this model.
- The dispatch order of prefetch groups is not modelled, because the grouping is returned as a map.
- Errors.Description: its own contract says only that a message is non-empty. The per-case templates are transcribed as they are; `DescriptionNamesPayload` proves that each shows its payload, and only the `missingDataSource` message is proved to read back as its index. The list of `duplicateSectionIds` is not proved to appear.
- TeamMembers.RemoveAll, Errors.Equals, DataSourceRouting.ViewForSupplementaryElementOfKind, SectionUpdates.Equal: strings are compared as exact sequences of Unicode scalars. Swift's `String ==` also equates canonically equivalent strings (`"é"` and `"e\u{301}"`), so the model agrees with the program only for strings kept in one normal form, such as NFC.
- Errors.IdsDescription: renders a `String` id as `AnyHashable("…")` and does not escape quotes or backslashes inside the id.
- `TeamMemberSectionViewModel.members` is the function `Members`, which returns the internal list. `headerTitle` is a constant field.
