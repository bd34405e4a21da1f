/**
 * `ListCollectionViewAdapter` as `UICollectionViewDataSourcePrefetching`: the
 * requested paths are filtered to valid ones, grouped by section, and each
 * group goes to that section's prefetching delegate, if it has one.
 */
module PrefetchRouting {
  import opened Wrappers
  import opened IndexPaths

  /** A call on a section's prefetching delegate. */
  datatype PrefetchCall =
    | PrefetchItems(delegate: DelegateId, at: seq<SectionIndexPath>)
    | CancelPrefetchingForItems(delegate: DelegateId, at: seq<SectionIndexPath>)

  /** `filter(\.isValid)`: the valid paths, in input order. */
  function FilterValid(paths: seq<IndexPath>, sectionCount: int): (r: seq<IndexPath>)
    ensures forall i :: 0 <= i < |r| ==> IsSectionIndexValid(r[i], sectionCount)
  {
    if paths == [] then []
    else if IsSectionIndexValid(paths[0], sectionCount) then [paths[0]] + FilterValid(paths[1..], sectionCount)
    else FilterValid(paths[1..], sectionCount)
  }

  /** The group of `group(by: \.section)` for section `s`: its paths, in input order. */
  function GroupOf(paths: seq<IndexPath>, s: int): (r: seq<IndexPath>)
    ensures forall i :: 0 <= i < |r| ==> r[i] in paths && |r[i]| > 0 && r[i][0] == s
  {
    if paths == [] then []
    else if |paths[0]| > 0 && paths[0][0] == s then [paths[0]] + GroupOf(paths[1..], s)
    else GroupOf(paths[1..], s)
  }

  /** `map(SectionIndexPath.init)`: each path with its item as local index. */
  function LocalPaths(group: seq<IndexPath>): (r: seq<SectionIndexPath>)
    requires forall i :: 0 <= i < |group| ==> |group[i]| == 2
    ensures |r| == |group|
  {
    seq(|group|, i requires 0 <= i < |group| => LocalPath(group[i]))
  }

  /** The paths of section `s` that are forwarded, if that section has a delegate. */
  function Routed(sections: seq<SectionEntry>, paths: seq<IndexPath>, s: int): seq<IndexPath> {
    GroupOf(FilterValid(paths, |sections|), s)
  }

  /** Sections that receive a call: in range, with a delegate, and with at least one valid path. */
  predicate Receives(sections: seq<SectionEntry>, paths: seq<IndexPath>, s: int) {
    0 <= s < |sections| && sections[s].prefetchDelegate.Some? && Routed(sections, paths, s) != []
  }

  /** `prefetchItemsAt`: the call each section's delegate receives, keyed by section index. */
  function PrefetchItemsAt(sections: seq<SectionEntry>, paths: seq<IndexPath>): (r: map<int, PrefetchCall>)
    ensures forall s :: s in r ==>
              && 0 <= s < |sections|
              && r[s].PrefetchItems?
              && sections[s].prefetchDelegate == Some(r[s].delegate)
              && |r[s].at| > 0
  {
    map s | 0 <= s < |sections| && Receives(sections, paths, s) ::
      PrefetchItems(sections[s].prefetchDelegate.value, LocalPaths(Routed(sections, paths, s)))
  }

  /** `cancelPrefetchingForItemsAt`: the same pipeline ending in `cancelPrefetchingForItems(at:)`. */
  function CancelPrefetchingForItemsAt(sections: seq<SectionEntry>, paths: seq<IndexPath>): (r: map<int, PrefetchCall>)
    ensures forall s :: s in r ==>
              && 0 <= s < |sections|
              && r[s].CancelPrefetchingForItems?
              && sections[s].prefetchDelegate == Some(r[s].delegate)
              && |r[s].at| > 0
  {
    map s | 0 <= s < |sections| && Receives(sections, paths, s) ::
      CancelPrefetchingForItems(sections[s].prefetchDelegate.value, LocalPaths(Routed(sections, paths, s)))
  }

  // ---------------------------------------------------------------------------
  // Counting occurrences: the reference the routing is checked against
  // ---------------------------------------------------------------------------

  /** How many entries of `paths` are valid and lie in section `s`. */
  function CountInSection(paths: seq<IndexPath>, sectionCount: int, s: int): nat {
    if paths == [] then 0
    else (if IsSectionIndexValid(paths[0], sectionCount) && paths[0][0] == s then 1 else 0)
         + CountInSection(paths[1..], sectionCount, s)
  }

  lemma {:induction false} FilterValidCount(paths: seq<IndexPath>, sectionCount: int, p: IndexPath)
    ensures multiset(FilterValid(paths, sectionCount))[p]
            == if IsSectionIndexValid(p, sectionCount) then multiset(paths)[p] else 0
  {
    if paths != [] {
      FilterValidCount(paths[1..], sectionCount, p);
      assert paths == [paths[0]] + paths[1..];
    }
  }

  lemma {:induction false} GroupOfCount(paths: seq<IndexPath>, s: int, p: IndexPath)
    ensures multiset(GroupOf(paths, s))[p] == if |p| > 0 && p[0] == s then multiset(paths)[p] else 0
  {
    if paths != [] {
      GroupOfCount(paths[1..], s, p);
      assert paths == [paths[0]] + paths[1..];
    }
  }

  lemma {:induction false} RoutedLength(paths: seq<IndexPath>, sectionCount: int, s: int)
    ensures |GroupOf(FilterValid(paths, sectionCount), s)| == CountInSection(paths, sectionCount, s)
  {
    if paths != [] {
      RoutedLength(paths[1..], sectionCount, s);
    }
  }

  // ---------------------------------------------------------------------------
  // Properties of the routing
  // ---------------------------------------------------------------------------

  /** No invalid path is forwarded, and a batch for section `s` holds only paths of section `s`. */
  lemma OnlyValidPathsOfTheSection(sections: seq<SectionEntry>, paths: seq<IndexPath>, s: int)
    requires s in PrefetchItemsAt(sections, paths)
    ensures var call := PrefetchItemsAt(sections, paths)[s];
            && call.delegate == sections[s].prefetchDelegate.value
            && forall i :: 0 <= i < |call.at| ==>
                 && IsSectionIndexValid(call.at[i].indexInCollectionView, |sections|)
                 && call.at[i].indexInCollectionView[0] == s
                 && call.at[i].indexInSectionController == call.at[i].indexInCollectionView[1]
  {
    var group := Routed(sections, paths, s);
    var valid := FilterValid(paths, |sections|);
    forall i | 0 <= i < |group|
      ensures IsSectionIndexValid(group[i], |sections|)
    {
      var k :| 0 <= k < |valid| && valid[k] == group[i];
    }
  }

  /**
   * A section receives a call iff it is in range, has a prefetching delegate and
   * was asked for at least one valid path: a section without a delegate is
   * skipped and dispatch to the others goes on.
   */
  lemma WhoReceives(sections: seq<SectionEntry>, paths: seq<IndexPath>, s: int)
    ensures s in PrefetchItemsAt(sections, paths) <==>
              0 <= s < |sections| && sections[s].prefetchDelegate.Some? && CountInSection(paths, |sections|, s) > 0
  {
    RoutedLength(paths, |sections|, s);
  }

  /** The number of paths forwarded to a section equals the number of valid requests for it. */
  lemma BatchSize(sections: seq<SectionEntry>, paths: seq<IndexPath>, s: int)
    requires s in PrefetchItemsAt(sections, paths)
    ensures |PrefetchItemsAt(sections, paths)[s].at| == CountInSection(paths, |sections|, s)
  {
    RoutedLength(paths, |sections|, s);
  }

  /**
   * Every valid path whose section has a delegate is forwarded to that section
   * as many times as it was requested, and never to another section.
   */
  lemma ForwardedExactlyOnce(sections: seq<SectionEntry>, paths: seq<IndexPath>, p: IndexPath)
    requires IsSectionIndexValid(p, |sections|) && sections[p[0]].prefetchDelegate.Some? && p in paths
    ensures p[0] in PrefetchItemsAt(sections, paths)
    ensures multiset(PrefetchItemsAt(sections, paths)[p[0]].at)[LocalPath(p)] == multiset(paths)[p]
    ensures forall s :: s in PrefetchItemsAt(sections, paths) && s != p[0] ==>
              LocalPath(p) !in PrefetchItemsAt(sections, paths)[s].at
  {
    var valid := FilterValid(paths, |sections|);
    var group := Routed(sections, paths, p[0]);
    FilterValidCount(paths, |sections|, p);
    GroupOfCount(valid, p[0], p);
    assert p in group;
    LocalPathsCount(group, p);
    forall s | s in PrefetchItemsAt(sections, paths) && s != p[0]
      ensures LocalPath(p) !in PrefetchItemsAt(sections, paths)[s].at
    {
      OnlyValidPathsOfTheSection(sections, paths, s);
    }
  }

  /** Mapping to local paths keeps the multiplicity of each two-index path. */
  lemma {:induction false} LocalPathsCount(group: seq<IndexPath>, p: IndexPath)
    requires forall i :: 0 <= i < |group| ==> |group[i]| == 2
    requires |p| == 2
    ensures multiset(LocalPaths(group))[LocalPath(p)] == multiset(group)[p]
  {
    if group != [] {
      LocalPathsCount(group[1..], p);
      assert group == [group[0]] + group[1..];
      assert LocalPaths(group) == [LocalPath(group[0])] + LocalPaths(group[1..]);
    }
  }

  /** Cancelling prefetch routes exactly as prefetching does. */
  lemma CancelRoutesLikePrefetch(sections: seq<SectionEntry>, paths: seq<IndexPath>)
    ensures CancelPrefetchingForItemsAt(sections, paths).Keys == PrefetchItemsAt(sections, paths).Keys
    ensures forall s :: s in PrefetchItemsAt(sections, paths) ==>
              && CancelPrefetchingForItemsAt(sections, paths)[s].CancelPrefetchingForItems?
              && CancelPrefetchingForItemsAt(sections, paths)[s].delegate == PrefetchItemsAt(sections, paths)[s].delegate
              && CancelPrefetchingForItemsAt(sections, paths)[s].at == PrefetchItemsAt(sections, paths)[s].at
  {
  }
}
