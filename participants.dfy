/**
 * The participants strip shown on a story or an event: at most `maxVisible`
 * avatars, each ringed in one of six neon colours taken in turn, earlier
 * avatars stacked above later ones, and a "+N" badge for the rest.
 */
module Participants {
  import opened Wrappers
  import Seqs

  const NEON_COLORS: seq<string> := ["neon-green", "neon-pink", "neon-blue", "neon-yellow", "neon-purple", "neon-orange"]
  const DEFAULT_MAX_VISIBLE: int := 10

  /** What the strip draws: the avatars shown and the count for the badge. */
  datatype Strip<M> = Strip(visible: seq<M>, remaining: int)

  /**
   * The strip for a participant list; None when the list is missing or
   * empty, in which case nothing is drawn.
   */
  function View<M>(participants: Option<seq<M>>, maxVisible: Option<int>): (r: Option<Strip<M>>)
    ensures r.None? <==> participants.None? || participants.value == []
    ensures r.Some? ==> r.value.visible == Seqs.SliceTo(participants.value, maxVisible.GetOr(DEFAULT_MAX_VISIBLE))
    ensures r.Some? ==> r.value.remaining == |participants.value| - maxVisible.GetOr(DEFAULT_MAX_VISIBLE)
  {
    if participants.None? || participants.value == [] then None
    else
      var limit := maxVisible.GetOr(DEFAULT_MAX_VISIBLE);
      Some(Strip(Seqs.SliceTo(participants.value, limit), |participants.value| - limit))
  }

  /** The "+N mais" badge is drawn only when some participants are hidden. */
  predicate ShowsBadge<M>(s: Strip<M>) {
    s.remaining > 0
  }

  /** The ring colour of the avatar at `index`. */
  function Color(index: nat): (c: string)
    ensures c in NEON_COLORS
    ensures c == NEON_COLORS[index % |NEON_COLORS|]
  {
    NEON_COLORS[index % |NEON_COLORS|]
  }

  /** The stacking order of the avatar at `index` in a list of `count`. */
  function ZIndex(count: nat, index: nat): int {
    count - index
  }

  /** With a limit that is not negative, shown plus badge is every participant, and the shown ones come first. */
  lemma ShownPlusBadgeIsAll<M>(participants: seq<M>, maxVisible: int)
    requires participants != [] && maxVisible >= 0
    ensures var s := View(Some(participants), Some(maxVisible)).value;
      && s.visible == participants[..|s.visible|]
      && |s.visible| + Seqs.Max(s.remaining, 0) == |participants|
      && (ShowsBadge(s) <==> |s.visible| < |participants|)
  {
  }

  /** A short list is shown whole and without a badge. */
  lemma ShortListShownWhole<M>(participants: seq<M>)
    requires 0 < |participants| <= DEFAULT_MAX_VISIBLE
    ensures View(Some(participants), None) == Some(Strip(participants, |participants| - DEFAULT_MAX_VISIBLE))
    ensures !ShowsBadge(View(Some(participants), None).value)
  {
    assert participants[..|participants|] == participants;
  }

  /** Colours repeat every six avatars, and six neighbours all differ. */
  lemma ColorsCycle(i: nat, j: nat)
    ensures Color(i + |NEON_COLORS|) == Color(i)
    ensures i < j < i + |NEON_COLORS| ==> Color(i) != Color(j)
  {
    assert (i + 6) % 6 == i % 6;
    if i < j < i + 6 {
      assert i % 6 != j % 6;
    }
  }

  /** An earlier avatar is always stacked above a later one. */
  lemma EarlierAbove(count: nat, i: nat, j: nat)
    requires i < j
    ensures ZIndex(count, i) > ZIndex(count, j)
  {
  }
}
