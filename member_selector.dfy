/**
 * The member picker used by the story and event forms: the search over the
 * loaded members, the chips of the members already chosen, and the two
 * callbacks that change the chosen ids. A callback that returns without
 * calling `onChange` is modelled as None.
 */
module MemberSelector {
  import opened Wrappers
  import opened Types
  import Seqs
  import Text

  /** Case-insensitive match of the search text against a member's name or nickname. */
  predicate MatchesSearch(m: Member, search: string) {
    Text.Contains(Text.Lower(m.name), Text.Lower(search))
      || Text.Contains(Text.Lower(m.nickname), Text.Lower(search))
  }

  /** The members listed in the open dropdown. */
  function FilteredMembers(members: seq<Member>, search: string): (r: seq<Member>)
    ensures forall m :: m in r <==> m in members && MatchesSearch(m, search)
    ensures forall m :: multiset(r)[m] == if MatchesSearch(m, search) then multiset(members)[m] else 0
    ensures Seqs.IsSubseq(r, members)
  {
    Seqs.Filter((m: Member) => MatchesSearch(m, search), members)
  }

  /** With nothing typed the dropdown lists every member, in store order. */
  lemma EmptySearchListsAll(members: seq<Member>)
    ensures FilteredMembers(members, "") == members
  {
    forall i | 0 <= i < |members|
      ensures MatchesSearch(members[i], "")
    {
      Text.ContainsEmpty(Text.Lower(members[i].name));
    }
    Seqs.FilterAll((m: Member) => MatchesSearch(m, ""), members);
  }

  /** The chips shown for the chosen ids, in store order. */
  function SelectedMembers(members: seq<Member>, ids: seq<string>): (r: seq<Member>)
    ensures forall m :: m in r <==> m in members && m.id in ids
    ensures forall m :: multiset(r)[m] == if m.id in ids then multiset(members)[m] else 0
    ensures Seqs.IsSubseq(r, members)
  {
    Seqs.Filter((m: Member) => m.id in ids, members)
  }

  /** The test `x => x !== id`, named so that every use is the same function. */
  function Other(id: string): string -> bool {
    x => x != id
  }

  /** `ids.filter(x => x !== id)`. */
  function Without(ids: seq<string>, id: string): (r: seq<string>)
    ensures forall x :: x in r <==> x in ids && x != id
    ensures forall x :: x != id ==> multiset(r)[x] == multiset(ids)[x]
    ensures |r| <= |ids|
  {
    Seqs.Filter(Other(id), ids)
  }

  /** A limit of `undefined` or 0 is no limit at all. */
  predicate LimitActive(maxSelection: Option<int>) {
    maxSelection.Some? && maxSelection.value != 0
  }

  /**
   * Clicking a member in the dropdown: a chosen member is dropped, an
   * unchosen one is added at the end unless the limit is reached, in which
   * case nothing is reported.
   */
  function Toggle(ids: seq<string>, id: string, maxSelection: Option<int>): (r: Option<seq<string>>)
    ensures id in ids ==> r == Some(Without(ids, id))
    ensures id !in ids && LimitActive(maxSelection) && |ids| >= maxSelection.value ==> r == None
    ensures id !in ids && !(LimitActive(maxSelection) && |ids| >= maxSelection.value) ==> r == Some(ids + [id])
    ensures r.Some? ==> (id in r.value <==> id !in ids)
  {
    if id in ids then Some(Without(ids, id))
    else if LimitActive(maxSelection) && |ids| >= maxSelection.value then None
    else Some(ids + [id])
  }

  /** The chip's remove button: always reports the list without that id. */
  function Remove(ids: seq<string>, id: string): (r: seq<string>)
    ensures id !in r
    ensures forall x :: x in r <==> x in ids && x != id
  {
    Without(ids, id)
  }

  /** A selection within an active limit stays within it. */
  lemma ToggleKeepsLimit(ids: seq<string>, id: string, limit: int)
    requires limit != 0 && |ids| <= limit
    ensures Toggle(ids, id, Some(limit)).Some? ==> |Toggle(ids, id, Some(limit)).value| <= limit
  {
  }

  /** Without a limit every click is reported. */
  lemma NoLimitAlwaysReports(ids: seq<string>, id: string, maxSelection: Option<int>)
    requires !LimitActive(maxSelection)
    ensures Toggle(ids, id, maxSelection).Some?
  {
  }

  /** Removing an id that was never chosen reports the list unchanged. */
  lemma {:induction false} RemoveAbsent(ids: seq<string>, id: string)
    requires id !in ids
    ensures Remove(ids, id) == ids
  {
    Seqs.FilterAll(Other(id), ids);
  }

  /** Clicking the same unchosen member twice gives back the original selection. */
  lemma {:induction false} ToggleTwice(ids: seq<string>, id: string, maxSelection: Option<int>)
    requires id !in ids
    requires Toggle(ids, id, maxSelection).Some?
    ensures Toggle(Toggle(ids, id, maxSelection).value, id, maxSelection) == Some(ids)
  {
    var t := ids + [id];
    assert Toggle(ids, id, maxSelection) == Some(t);
    assert id in t;
    Seqs.FilterConcat(Other(id), ids, [id]);
    Seqs.FilterAll(Other(id), ids);
    assert Seqs.Filter(Other(id), [id]) == [];
    assert Without(t, id) == ids + [];
    assert ids + [] == ids;
    assert Toggle(t, id, maxSelection) == Some(Without(t, id));
  }
}
