/**
 * Index paths as the generic `ListCollectionViewAdapter` sees them, and what it
 * knows of each displayed section's controller.
 */
module IndexPaths {
  import opened Wrappers

  /** `IndexPath`: a list of indices; the collection view uses two, section then item. */
  type IndexPath = seq<int>

  /** Identity of a section controller's `dataSourcePrefetchingDelegate`. */
  type DelegateId = nat

  /** One displayed section: its controller's item count and optional prefetching delegate. */
  datatype SectionEntry = SectionEntry(numberOfItems: int, prefetchDelegate: Option<DelegateId>)

  /**
   * `isSectionIndexValid(for:)` and `isValid`: the path holds exactly two indices
   * and its section index lies within the displayed sections.
   */
  predicate IsSectionIndexValid(p: IndexPath, sectionCount: int) {
    |p| == 2 && 0 <= p[0] < sectionCount
  }

  /** `SectionIndexPath`: a path in the collection view and the index local to the section controller. */
  datatype SectionIndexPath = SectionIndexPath(indexInCollectionView: IndexPath, indexInSectionController: int)

  /** A section-local path whose local index is the item of a two-index path. */
  function LocalPath(p: IndexPath): SectionIndexPath
    requires |p| == 2
  {
    SectionIndexPath(p, p[1])
  }
}
