/**
 * The example app's `TeamMemberSectionViewModel`: a list of member names that
 * grows by appending and shrinks by removing every occurrence of a name, and
 * that tells its delegate about every change.
 */
module TeamMembers {

  /** `RemoveAll`: the list without any occurrence of `member`, the rest in order. */
  function RemoveAll(members: seq<string>, member: string): (r: seq<string>)
    ensures |r| <= |members|
    ensures forall x :: x in r ==> x in members && x != member
  {
    if members == [] then []
    else
      var last := members[|members| - 1];
      RemoveAll(members[..|members| - 1], member) + (if last == member then [] else [last])
  }

  /** Removal works piecewise: on a concatenation it removes from each part, keeping the order. */
  lemma {:induction false} RemoveAllAppend(a: seq<string>, b: seq<string>, member: string)
    ensures RemoveAll(a + b, member) == RemoveAll(a, member) + RemoveAll(b, member)
    decreases |b|
  {
    if b == [] {
      assert a + b == a;
    } else {
      var b' := b[..|b| - 1];
      assert (a + b)[..|a + b| - 1] == a + b';
      RemoveAllAppend(a, b', member);
    }
  }

  /** A single other name is kept, and `member` itself is dropped. */
  lemma RemoveAllSingle(x: string, member: string)
    ensures RemoveAll([x], member) == if x == member then [] else [x]
  {
    assert [x][..0] == [];
  }

  /** After removal the name no longer occurs, and every other name occurs as often as before. */
  lemma {:induction false} RemoveAllCounts(members: seq<string>, member: string)
    ensures multiset(RemoveAll(members, member))[member] == 0
    ensures forall x :: x != member ==> multiset(RemoveAll(members, member))[x] == multiset(members)[x]
  {
    if members != [] {
      var init := members[..|members| - 1];
      RemoveAllCounts(init, member);
      assert members == init + [members[|members| - 1]];
    }
  }

  /** Removing a name that is not there changes nothing. */
  lemma {:induction false} RemoveAbsentIsIdentity(members: seq<string>, member: string)
    requires member !in members
    ensures RemoveAll(members, member) == members
  {
    if members != [] {
      var init := members[..|members| - 1];
      assert members == init + [members[|members| - 1]];
      RemoveAbsentIsIdentity(init, member);
    }
  }

  /** `TeamMemberSectionViewModelDelegate`, recording each `didUpdate(members:)` it receives. */
  class TeamMemberSectionViewModelDelegate {
    var updates: seq<seq<string>>

    constructor ()
      ensures updates == []
    {
      updates := [];
    }

    method DidUpdate(members: seq<string>)
      modifies this
      ensures updates == old(updates) + [members]
    {
      updates := updates + [members];
    }
  }

  class TeamMemberSectionViewModel {
    var mutableMembers: seq<string>
    const headerTitle: string := "Team Members"
    var delegate: TeamMemberSectionViewModelDelegate?

    constructor ()
      ensures mutableMembers == ["Marco", "Niclas", "Tom", "Flo", "Deniz"]
      ensures delegate == null
    {
      mutableMembers := ["Marco", "Niclas", "Tom", "Flo", "Deniz"];
      delegate := null;
    }

    /** `members`: the internal list as it is. */
    function Members(): (r: seq<string>)
      reads this
      ensures r == mutableMembers
    {
      mutableMembers
    }

    /** Appends `member` and tells the delegate the new list. */
    method Add(member: string)
      modifies this, delegate
      ensures delegate == old(delegate)
      ensures mutableMembers == old(mutableMembers) + [member]
      ensures delegate != null ==> delegate.updates == old(delegate.updates) + [mutableMembers]
    {
      mutableMembers := mutableMembers + [member];
      if delegate != null {
        delegate.DidUpdate(Members());
      }
    }

    /** `removeAll { $0 == member }`, then tells the delegate the new list. */
    method Remove(member: string)
      modifies this, delegate
      ensures delegate == old(delegate)
      ensures mutableMembers == RemoveAll(old(mutableMembers), member)
      ensures member !in mutableMembers
      ensures member !in old(mutableMembers) ==> mutableMembers == old(mutableMembers)
      ensures delegate != null ==> delegate.updates == old(delegate.updates) + [mutableMembers]
    {
      if member !in mutableMembers {
        RemoveAbsentIsIdentity(mutableMembers, member);
      }
      mutableMembers := RemoveAll(mutableMembers, member);
      if delegate != null {
        delegate.DidUpdate(Members());
      }
    }
  }
}
