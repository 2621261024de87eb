/** The "Suggestions Based on Data" list of
    frontend-1/src/components/Suggestion.js: three conditions over the levels
    of the fetched history, oldest first. The whole section is rendered only
    for a non-empty history. */
module DataPanel {
  import opened Levels
  import BehaviourPanel

  datatype Item = EngagementWasLow | HighlyEngaged | RecentDisengagement
  {
    function Text(): string {
      match this
      case EngagementWasLow => "Engagement was low. Consider interactive tasks or short breaks."
      case HighlyEngaged => "Student is highly engaged most of the time. Keep up the good work!"
      case RecentDisengagement => "Recent data shows disengagement. Consider follow-up with the student."
    }
  }

  /** `history.some((h) => h.level === 0)`. */
  predicate EngagementWasLowShown(levels: seq<int>) {
    0 in levels
  }

  /** `count(level === 2) > history.length / 2`: strictly more than half. */
  predicate HighlyEngagedShown(levels: seq<int>) {
    Count(levels, 2) as real > |levels| as real / 2.0
  }

  /** `history.length >= 5 && history.slice(-3).every((h) => h.level === 0)`. */
  predicate RecentDisengagementShown(levels: seq<int>) {
    |levels| >= 5 &&
    var w := Tail(levels, 3);
    forall i :: 0 <= i < |w| ==> w[i] == 0
  }

  /** The rendered list, in display order. */
  function Panel(levels: seq<int>): (items: seq<Item>)
    ensures |items| <= 3
  {
    if levels == [] then []
    else
      (if EngagementWasLowShown(levels) then [EngagementWasLow] else [])
      + (if HighlyEngagedShown(levels) then [HighlyEngaged] else [])
      + (if RecentDisengagementShown(levels) then [RecentDisengagement] else [])
  }

  /** The highly-engaged item needs strictly more than half of the levels
      to be 2; exactly half does not qualify. */
  lemma HighlyEngagedIff(levels: seq<int>)
    ensures HighlyEngagedShown(levels) <==> 2 * Count(levels, 2) > |levels|
  {
  }

  /** The disengagement item means at least five records whose last three
      levels are 0. */
  lemma {:induction false} RecentDisengagementIff(levels: seq<int>)
    ensures RecentDisengagementShown(levels) <==>
      |levels| >= 5 && levels[|levels| - 3] == 0 && levels[|levels| - 2] == 0 && levels[|levels| - 1] == 0
  {
    if |levels| >= 5 {
      var w := Tail(levels, 3);
      assert w == [levels[|levels| - 3], levels[|levels| - 2], levels[|levels| - 1]];
    }
  }

  /** Whenever the disengagement item is shown, the low-engagement item is
      shown too. */
  lemma {:induction false} DisengagementImpliesLow(levels: seq<int>)
    requires RecentDisengagementShown(levels)
    ensures EngagementWasLowShown(levels)
  {
    var w := Tail(levels, 3);
    assert w[2] == levels[|levels| - 1];
  }

  /** Each condition of this list implies its counterpart on the search
      page's behavioural list, which is looser on both counts: the
      half-count admits exactly half, and three trailing 0s suffice without
      five records. */
  lemma {:induction false} StricterThanBehaviourPanel(levels: seq<int>)
    ensures EngagementWasLowShown(levels) <==> BehaviourPanel.LowEngagementShown(levels)
    ensures HighlyEngagedShown(levels) ==> BehaviourPanel.DoingGreatShown(levels)
    ensures RecentDisengagementShown(levels) ==> BehaviourPanel.ConsistentDisengagementShown(levels)
  {
  }

  /** Exactly half of the levels at 2 tells the two lists apart. */
  lemma ExactlyHalfSeparates()
    ensures BehaviourPanel.DoingGreatShown([2, 0]) && !HighlyEngagedShown([2, 0])
  {
    assert [2, 0][..1] == [2];
    assert [2][..0] == [];
  }

  /** Three trailing 0s in fewer than five records are flagged on the search
      page only. */
  lemma ShortHistorySeparates()
    ensures BehaviourPanel.ConsistentDisengagementShown([0, 0, 0])
    ensures !RecentDisengagementShown([0, 0, 0])
  {
  }
}
