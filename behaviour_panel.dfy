/** The search page of frontend-1/src/components/Suggestion.jsx: the average
    and the latest suggestion shown above the chart, and the three
    behavioural suggestions below it. Everything here is a pure expression
    over the levels of the fetched history, oldest first. */
module BehaviourPanel {
  import opened Wrappers
  import opened Levels

  /** averageEngagement: `null` for an empty history, else the mean level
      (the client prints it with two decimals). */
  function AverageEngagement(levels: seq<int>): (r: Option<real>)
    ensures r.None? <==> levels == []
    ensures r.Some? ==> r.value * |levels| as real == Sum(levels) as real
  {
    if levels == [] then None else Some(Mean(levels))
  }

  /** The mean of the last up to five levels. For an empty history the
      client divides 0 by 0 and gets NaN, modelled as `None`. */
  function RecentAverage(levels: seq<int>): (r: Option<real>)
    ensures r.None? <==> levels == []
    ensures r.Some? ==> r.value * |Tail(levels, 5)| as real == Sum(Tail(levels, 5)) as real
  {
    var recent := Tail(levels, 5);
    assert recent == [] <==> levels == [];
    if recent == [] then None else Some(Mean(recent))
  }

  /** The three messages `dynamicSuggestion` chooses from, least engaged
      first. */
  datatype Latest = VeryLowRecent | ModerateRecent | EngagedRecent
  {
    function Text(): string {
      match this
      case VeryLowRecent => "Recent attention is very low. Suggest 5-minute physical movement or engaging quiz."
      case ModerateRecent => "Moderate engagement recently. Try varying content presentation style."
      case EngagedRecent => "Student is staying engaged well. Offer advanced tasks to challenge them."
    }

    /** How engaged the message says the student is. */
    function Rank(): nat {
      match this
      case VeryLowRecent => 0
      case ModerateRecent => 1
      case EngagedRecent => 2
    }
  }

  /** The two thresholds of `dynamicSuggestion`; NaN fails both comparisons
      and so selects the last message. */
  function Pick(avg: Option<real>): Latest {
    if avg.Some? && avg.value < 0.5 then VeryLowRecent
    else if avg.Some? && avg.value < 1.2 then ModerateRecent
    else EngagedRecent
  }

  /** dynamicSuggestion. */
  function DynamicSuggestion(levels: seq<int>): Latest {
    Pick(RecentAverage(levels))
  }

  /** A lower recent average never selects a more engaged message. */
  lemma PickMonotone(a: real, b: real)
    requires a <= b
    ensures Pick(Some(a)).Rank() <= Pick(Some(b)).Rank()
  {
  }

  /** The choice in integer terms over the recent window `w` of up to five
      levels: very low when twice its sum is below its length, engaged
      when five times its sum reaches six times its length (or there are
      no levels at all), moderate in between. */
  lemma {:induction false} DynamicSuggestionByWindowSum(levels: seq<int>)
    ensures var w := Tail(levels, 5);
      DynamicSuggestion(levels) == VeryLowRecent <==> levels != [] && 2 * Sum(w) < |w|
    ensures var w := Tail(levels, 5);
      DynamicSuggestion(levels) == EngagedRecent <==> levels == [] || 5 * Sum(w) >= 6 * |w|
  {
    var w := Tail(levels, 5);
    if levels != [] {
      ThresholdsBySum(Mean(w), Sum(w), |w|);
    }
  }

  /** The two thresholds of `dynamicSuggestion` on a mean `m` of `n` levels
      summing to `total`, in integer terms. */
  lemma ThresholdsBySum(m: real, total: int, n: nat)
    requires n > 0 && m * n as real == total as real
    ensures m < 0.5 <==> 2 * total < n
    ensures m < 1.2 <==> 5 * total < 6 * n
  {
    MeanBelow(m, n as real, total as real, 0.5);
    MeanBelow(m, n as real, total as real, 1.2);
  }

  /** The three behavioural suggestions, in display order. */
  datatype Item = LowEngagement | ConsistentDisengagement | DoingGreat
  {
    function Text(): string {
      match this
      case LowEngagement => "Low engagement detected. Introduce gamified content or peer interaction."
      case ConsistentDisengagement => "Recent trend shows consistent disengagement. Follow-up is recommended."
      case DoingGreat => "Student is doing great! Assign exploratory or creative tasks."
    }
  }

  /** `history.some((h) => h.level === 0)`. */
  predicate LowEngagementShown(levels: seq<int>) {
    0 in levels
  }

  /** `history.slice(-3).every((h) => h.level === 0)`; true of an empty
      history. */
  predicate ConsistentDisengagementShown(levels: seq<int>) {
    var w := Tail(levels, 3);
    forall i :: 0 <= i < |w| ==> w[i] == 0
  }

  /** `count(level === 2) >= history.length / 2`, with JavaScript's real
      division. */
  predicate DoingGreatShown(levels: seq<int>) {
    Count(levels, 2) as real >= |levels| as real / 2.0
  }

  /** The rendered list: the whole section sits under `history.length > 0`,
      and each item appears when its condition holds, in order. */
  function Panel(levels: seq<int>): (items: seq<Item>)
    ensures |items| <= 3
  {
    if levels == [] then []
    else
      (if LowEngagementShown(levels) then [LowEngagement] else [])
      + (if ConsistentDisengagementShown(levels) then [ConsistentDisengagement] else [])
      + (if DoingGreatShown(levels) then [DoingGreat] else [])
  }

  /** The low-engagement item is shown exactly when some level is 0. */
  lemma LowEngagementIff(levels: seq<int>)
    ensures LowEngagementShown(levels) <==> Count(levels, 0) > 0
  {
    CountPositive(levels, 0);
  }

  /** The consistent-disengagement item is shown exactly when the last
      min(3, n) levels are all 0. */
  lemma {:induction false} ConsistentDisengagementIff(levels: seq<int>)
    ensures ConsistentDisengagementShown(levels) <==> Count(Tail(levels, 3), 0) == |Tail(levels, 3)|
  {
    CountFull(Tail(levels, 3), 0);
  }

  /** For a non-empty history a consistent disengagement implies a low
      engagement: the last level is 0. */
  lemma {:induction false} ConsistentImpliesLow(levels: seq<int>)
    requires levels != []
    requires ConsistentDisengagementShown(levels)
    ensures LowEngagementShown(levels)
  {
    var w := Tail(levels, 3);
    assert w[|w| - 1] == levels[|levels| - 1];
  }

  /** The doing-great item is shown exactly when at least half of the
      levels are 2; exactly half qualifies. */
  lemma DoingGreatIff(levels: seq<int>)
    ensures DoingGreatShown(levels) <==> 2 * Count(levels, 2) >= |levels|
  {
  }

  /** The rendered list holds exactly the items whose conditions hold, for
      a non-empty history, and nothing otherwise. */
  lemma PanelMembers(levels: seq<int>, item: Item)
    ensures item in Panel(levels) <==> levels != [] && match item
      case LowEngagement => 0 in levels
      case ConsistentDisengagement => ConsistentDisengagementShown(levels)
      case DoingGreat => 2 * Count(levels, 2) >= |levels|
  {
  }

  /** A history of 0s shows the two disengagement items and, having no 2s,
      not the doing-great one. */
  lemma {:induction false} AllZeroPanel(levels: seq<int>)
    requires levels != []
    requires forall i :: 0 <= i < |levels| ==> levels[i] == 0
    ensures Panel(levels) == [LowEngagement, ConsistentDisengagement]
  {
    assert levels[0] == 0;
    CountPositive(levels, 2);
  }
}
