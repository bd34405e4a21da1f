/**
 * `ListCollectionViewAdapter` as `UICollectionViewDataSource`: adapter-wide
 * (section, item) coordinates are checked and routed to the section controller
 * that owns them, with its local index.
 */
module DataSourceRouting {
  import opened Wrappers
  import opened IndexPaths

  /** `UICollectionView.elementKindSectionHeader`. */
  const ElementKindSectionHeader: string := "UICollectionElementKindSectionHeader"
  /** `UICollectionView.elementKindSectionFooter`. */
  const ElementKindSectionFooter: string := "UICollectionElementKindSectionFooter"

  /** A cell: the one the controller of `section` dequeues at `at`, or an empty placeholder. */
  datatype Cell = ControllerCell(section: int, at: SectionIndexPath) | PlaceholderCell

  /** A supplementary view: the controller's header or footer, or an empty placeholder. */
  datatype SupplementaryView =
    | HeaderView(section: int, at: SectionIndexPath)
    | FooterView(section: int, at: SectionIndexPath)
    | PlaceholderView

  /**
   * What `moveItemAt` does: nothing, or one `moveItem(at:to:)` on the controller
   * of `section`; `Trap` is the stop taken when `IndexPath.item` is read from a
   * destination that does not hold exactly two indices.
   */
  datatype MoveOutcome =
    | NotForwarded
    | Forwarded(section: int, from: SectionIndexPath, to: SectionIndexPath)
    | Trap

  function NumberOfSections(sections: seq<SectionEntry>): (r: int)
    ensures r == |sections|
  {
    |sections|
  }

  /** The item count of a displayed section; 0 for a section index out of range. */
  function NumberOfItemsInSection(sections: seq<SectionEntry>, section: int): (r: int)
    ensures 0 <= section < |sections| ==> r == sections[section].numberOfItems
    ensures !(0 <= section < |sections|) ==> r == 0
  {
    if section >= 0 && section < |sections| then sections[section].numberOfItems else 0
  }

  /** The cell for an adapter path: routed to the path's section with the item as local index. */
  function CellForItemAt(sections: seq<SectionEntry>, p: IndexPath): (r: Cell)
    ensures r.ControllerCell? <==> IsSectionIndexValid(p, |sections|)
    ensures r.ControllerCell? ==> r.section == p[0] && r.at.indexInCollectionView == p && r.at.indexInSectionController == p[1]
  {
    if !IsSectionIndexValid(p, |sections|) then PlaceholderCell
    else ControllerCell(p[0], LocalPath(p))
  }

  /** A header for the header kind, a footer for the footer kind, a placeholder otherwise or for an invalid path. */
  function ViewForSupplementaryElementOfKind(sections: seq<SectionEntry>, elementKind: string, p: IndexPath): (r: SupplementaryView)
    ensures r.HeaderView? <==> IsSectionIndexValid(p, |sections|) && elementKind == ElementKindSectionHeader
    ensures r.FooterView? <==> IsSectionIndexValid(p, |sections|) && elementKind == ElementKindSectionFooter
    ensures !r.PlaceholderView? ==> r.section == p[0] && r.at.indexInCollectionView == p && r.at.indexInSectionController == p[1]
  {
    if !IsSectionIndexValid(p, |sections|) then PlaceholderView
    else if elementKind == ElementKindSectionHeader then HeaderView(p[0], LocalPath(p))
    else if elementKind == ElementKindSectionFooter then FooterView(p[0], LocalPath(p))
    else PlaceholderView
  }

  /**
   * Whether an item may move: the owning controller's `canMoveItem(at:)`, asked
   * with the item as local index; false for an invalid path.
   */
  function CanMoveItemAt(sections: seq<SectionEntry>, p: IndexPath, canMoveItem: (int, SectionIndexPath) -> bool): (r: bool)
    ensures !IsSectionIndexValid(p, |sections|) ==> !r
    ensures IsSectionIndexValid(p, |sections|) ==> r == canMoveItem(p[0], SectionIndexPath(p, p[1]))
  {
    if !IsSectionIndexValid(p, |sections|) then false
    else canMoveItem(p[0], LocalPath(p))
  }

  /**
   * `moveItemAt`: forwarded to the source section's controller when the source
   * is valid and either the move stays inside one valid section or moves
   * between sections are allowed.
   */
  function MoveItemAt(sections: seq<SectionEntry>, source: IndexPath, destination: IndexPath,
                      allowReorderingBetweenDifferentSections: bool): (r: MoveOutcome)
    ensures r.NotForwarded? <==>
              !IsSectionIndexValid(source, |sections|)
              || (!allowReorderingBetweenDifferentSections
                  && !(IsSectionIndexValid(destination, |sections|) && source[0] == destination[0]))
    ensures r.Trap? <==>
              IsSectionIndexValid(source, |sections|) && allowReorderingBetweenDifferentSections && |destination| != 2
    ensures r.Forwarded? ==>
              && r.section == source[0]
              && r.from == SectionIndexPath(source, source[1])
              && r.to == SectionIndexPath(destination, destination[1])
  {
    if !IsSectionIndexValid(source, |sections|) then NotForwarded
    else
      var moveInsideSection := IsSectionIndexValid(destination, |sections|) && source[0] == destination[0];
      if !(moveInsideSection || allowReorderingBetweenDifferentSections) then NotForwarded
      else if |destination| != 2 then Trap
      else Forwarded(source[0], LocalPath(source), LocalPath(destination))
  }

  /** A move inside one valid section is always forwarded, whatever the reordering flag says. */
  lemma MoveInsideSectionForwarded(sections: seq<SectionEntry>, source: IndexPath, destination: IndexPath, allow: bool)
    requires IsSectionIndexValid(source, |sections|) && IsSectionIndexValid(destination, |sections|)
    requires source[0] == destination[0]
    ensures MoveItemAt(sections, source, destination, allow)
            == Forwarded(source[0], SectionIndexPath(source, source[1]), SectionIndexPath(destination, destination[1]))
  {
  }

  /** Without cross-section reordering, whatever is forwarded stays inside one valid section. */
  lemma MoveForwardedOnlyInsideSection(sections: seq<SectionEntry>, source: IndexPath, destination: IndexPath)
    ensures MoveItemAt(sections, source, destination, false).Forwarded? ==>
              IsSectionIndexValid(destination, |sections|) && destination[0] == source[0]
  {
  }

  /** `indexTitles(for:)`: no index titles. */
  function IndexTitles(): (r: Option<seq<string>>)
    ensures r == None
  {
    None
  }

  /** `indexPathForIndexTitle`: the first item of the first section, whatever the title. */
  function IndexPathForIndexTitle(title: string, index: int): (r: IndexPath)
    ensures r == [0, 0]
  {
    [0, 0]
  }
}
