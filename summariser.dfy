/** The engagement summariser of frontend/src/components/Suggestion.jsx:
    statistics over one student's chronological history, six independent
    threshold rules that each add two suggestions, and a fallback. */
module Summariser {
  import opened Wrappers
  import opened Text
  import opened Levels
  import opened Frequency
  import Labels

  /** One history entry. `hour` is `new Date(timestamp).getHours()` (local
      time), `None` when the timestamp does not parse (the hour is then
      NaN and no comparison holds of it); `feedback` is `None` when absent. */
  datatype Record = Record(level: int, hour: Option<int>, feedback: Option<string>)

  /** `history.map((h) => h.predicted_engagement_level)`. */
  function LevelsOf(history: seq<Record>): (levels: seq<int>)
    ensures |levels| == |history|
    ensures forall i :: 0 <= i < |history| ==> levels[i] == history[i].level
  {
    seq(|history|, i requires 0 <= i < |history| => history[i].level)
  }

  /** A record that counts towards `afternoonLowCount`: its hour lies in
      13..16 inclusive and its level is below 1. */
  predicate AfternoonLow(r: Record) {
    r.hour.Some? && 13 <= r.hour.value <= 16 && r.level < 1
  }

  /** A record that counts towards `lowFeedbackCount`: its feedback is a
      non-empty string that contains "boring" in any letter case. */
  predicate BoringFeedback(r: Record) {
    r.feedback.Some? && r.feedback.value != "" && Contains(Lower(r.feedback.value), "boring")
  }

  /** The number of records satisfying `AfternoonLow`. */
  function AfternoonLowCount(history: seq<Record>): (n: nat)
    ensures n <= |history|
  {
    if history == [] then 0
    else AfternoonLowCount(history[..|history| - 1]) + (if AfternoonLow(history[|history| - 1]) then 1 else 0)
  }

  /** The number of records satisfying `BoringFeedback`. */
  function BoringFeedbackCount(history: seq<Record>): (n: nat)
    ensures n <= |history|
  {
    if history == [] then 0
    else BoringFeedbackCount(history[..|history| - 1]) + (if BoringFeedback(history[|history| - 1]) then 1 else 0)
  }

  lemma {:induction false} AfternoonLowCountZero(history: seq<Record>)
    requires forall i :: 0 <= i < |history| ==> !AfternoonLow(history[i])
    ensures AfternoonLowCount(history) == 0
  {
    if history != [] {
      AfternoonLowCountZero(history[..|history| - 1]);
    }
  }

  /** The statistics the rules read. */
  datatype Summary = Summary(
    avg: real,
    recentAvg: real,
    variance: real,
    mode: int,
    afternoonLows: nat,
    boringFeedback: nat)

  /** The statistics of a non-empty history: the mean, the mean of the last
      up to five levels, the population variance, the mode, and the two
      counts. */
  function Summarise(history: seq<Record>): (s: Summary)
    requires |history| > 0
    ensures s.variance >= 0.0
    ensures s.mode in LevelsOf(history)
  {
    var levels := LevelsOf(history);
    VarianceNonNegative(levels);
    Summary(
      Mean(levels),
      Mean(Tail(levels, 5)),
      Variance(levels),
      Mode(levels),
      AfternoonLowCount(history),
      BoringFeedbackCount(history))
  }

  /** The six rules, in the order the client evaluates them. */
  datatype Rule = AcuteDrop | Decline | Volatile | Enrichment | AfternoonDip | NegativeFeedback

  const RuleOrder: seq<Rule> := [AcuteDrop, Decline, Volatile, Enrichment, AfternoonDip, NegativeFeedback]

  /** The guard of each rule. */
  predicate Fires(rule: Rule, s: Summary) {
    match rule
    case AcuteDrop => s.recentAvg < 0.5
    case Decline => s.avg < 1.0 && s.recentAvg < s.avg
    case Volatile => s.variance > 0.5
    case Enrichment => s.mode == 2 && s.avg > 1.5
    case AfternoonDip => s.afternoonLows > 2
    case NegativeFeedback => s.boringFeedback > 1
  }

  /** The suggestion strings, one constructor each; `Text` gives the
      wording. Keeping the wording out of the rules keeps the proofs about
      order and count independent of the long string literals. */
  datatype Message =
    | VeryLowFocus | Multimedia
    | Dropping | Collaborative
    | Fluctuates | Pomodoro
    | Consistent | SupportPeers
    | AfternoonLowNote | AudioVideo
    | RepeatedNegative | Visuals
    | Stable
  {
    function Text(): string {
      match this
      case VeryLowFocus => "\U{1F7E5} Very low recent focus. Try interactive activities like quizzes or peer discussion."
      case Multimedia => "\U{1F9E0} Use multimedia or personal storytelling to stimulate attention."
      case Dropping => "\U{1F4C9} Engagement is dropping. Try short learning bursts and gamified tasks."
      case Collaborative => "\U{1F465} Introduce collaborative exercises to improve involvement."
      case Fluctuates => "\U{1F501} Engagement fluctuates. Recommend fixed daily schedules or structured breaks (e.g., 25\U{202F}min study, 5\U{202F}min break)."
      case Pomodoro => "\U{23F1}\U{FE0F} Use Pomodoro or 45-10 minute learning cycles."
      case Consistent => "\U{2705} Consistently engaged! Offer enrichment tasks like small research projects."
      case SupportPeers => "\U{1F4DA} Let them support peers or present topics or advanced challenges."
      case AfternoonLowNote => "\U{23F0} Low afternoon engagement detected. Use lighter content post-lunch or encourage short naps."
      case AudioVideo => "\U{1F3A7} Offer short audio/video learning aids during those hours."
      case RepeatedNegative => "\U{26A0}\U{FE0F} Repeated negative feedback."
      case Visuals => "\U{1F3A8} Add visuals, simulations, or hands-on exercises."
      case Stable => "\U{1F642} Engagement is stable. Continue using your current strategies, but stay flexible."
    }
  }

  /** The two suggestions a rule adds when it fires. */
  function Advice(rule: Rule): (a: seq<Message>)
    ensures |a| == 2 && Stable !in a
  {
    match rule
    case AcuteDrop => [VeryLowFocus, Multimedia]
    case Decline => [Dropping, Collaborative]
    case Volatile => [Fluctuates, Pomodoro]
    case Enrichment => [Consistent, SupportPeers]
    case AfternoonDip => [AfternoonLowNote, AudioVideo]
    case NegativeFeedback => [RepeatedNegative, Visuals]
  }

  /** The rules among `rules` whose guard holds, in order. */
  function FiredRules(rules: seq<Rule>, s: Summary): (f: seq<Rule>)
    ensures |f| <= |rules|
  {
    if rules == [] then []
    else (if Fires(rules[0], s) then [rules[0]] else []) + FiredRules(rules[1..], s)
  }

  /** The advice of every rule in `rules` that fires, each pair kept
      together, in rule order. */
  function AdviceFor(rules: seq<Rule>, s: Summary): seq<Message> {
    if rules == [] then []
    else AdviceIf(rules[0], s) + AdviceFor(rules[1..], s)
  }

  /** The suggestions for given statistics: the two messages of every rule
      that fires, rule by rule; the fallback alone when none fires. */
  function SuggestionsOf(s: Summary): seq<Message> {
    var advice := AdviceFor(RuleOrder, s);
    if advice == [] then [Stable] else advice
  }

  /** What the suggestions should be: nothing for an empty history, else the
      suggestions for its statistics. */
  function Suggestions(history: seq<Record>): seq<Message> {
    if history == [] then [] else SuggestionsOf(Summarise(history))
  }

  /** generateDynamicSuggestions: nothing for an empty history; otherwise
      the statistics, then the rules. */
  method GenerateDynamicSuggestions(history: seq<Record>) returns (suggestions: seq<Message>)
    ensures suggestions == Suggestions(history)
  {
    if |history| == 0 {
      return [];
    }
    var s := Summarise(history);
    suggestions := ApplyRules(s);
  }

  /** The rule section of generateDynamicSuggestions: one guarded pair of
      pushes per rule, then the fallback when nothing was pushed. */
  method ApplyRules(s: Summary) returns (suggestions: seq<Message>)
    ensures suggestions == SuggestionsOf(s)
  {
    suggestions := [];
    if s.recentAvg < 0.5 {
      suggestions := suggestions + Advice(AcuteDrop);
    }
    assert suggestions == AdviceIf(AcuteDrop, s);
    if s.avg < 1.0 && s.recentAvg < s.avg {
      suggestions := suggestions + Advice(Decline);
    }
    assert suggestions == AdviceIf(AcuteDrop, s) + AdviceIf(Decline, s);
    if s.variance > 0.5 {
      suggestions := suggestions + Advice(Volatile);
    }
    assert suggestions == AdviceIf(AcuteDrop, s) + AdviceIf(Decline, s) + AdviceIf(Volatile, s);
    if s.mode == 2 && s.avg > 1.5 {
      suggestions := suggestions + Advice(Enrichment);
    }
    assert suggestions == AdviceIf(AcuteDrop, s) + AdviceIf(Decline, s) + AdviceIf(Volatile, s)
      + AdviceIf(Enrichment, s);
    if s.afternoonLows > 2 {
      suggestions := suggestions + Advice(AfternoonDip);
    }
    assert suggestions == AdviceIf(AcuteDrop, s) + AdviceIf(Decline, s) + AdviceIf(Volatile, s)
      + AdviceIf(Enrichment, s) + AdviceIf(AfternoonDip, s);
    if s.boringFeedback > 1 {
      suggestions := suggestions + Advice(NegativeFeedback);
    }
    AdviceForInPushOrder(s);
    if |suggestions| == 0 {
      suggestions := suggestions + [Stable];
    }
  }

  /** The advice of one rule: its two messages when it fires, else none. */
  function AdviceIf(rule: Rule, s: Summary): seq<Message> {
    if Fires(rule, s) then Advice(rule) else []
  }

  /** The rule-order advice written out rule by rule. */
  lemma AdviceForUnrolled(s: Summary)
    ensures AdviceFor(RuleOrder, s) ==
      AdviceIf(AcuteDrop, s) + (AdviceIf(Decline, s) + (AdviceIf(Volatile, s) +
      (AdviceIf(Enrichment, s) + (AdviceIf(AfternoonDip, s) + AdviceIf(NegativeFeedback, s)))))
  {
    var r1 := [Decline, Volatile, Enrichment, AfternoonDip, NegativeFeedback];
    var r2 := [Volatile, Enrichment, AfternoonDip, NegativeFeedback];
    var r3 := [Enrichment, AfternoonDip, NegativeFeedback];
    var r4 := [AfternoonDip, NegativeFeedback];
    var r5 := [NegativeFeedback];
    assert RuleOrder[1..] == r1 && r1[1..] == r2 && r2[1..] == r3 && r3[1..] == r4 && r4[1..] == r5 && r5[1..] == [];
    assert AdviceFor(r5, s) == AdviceIf(NegativeFeedback, s) + [];
    assert AdviceIf(NegativeFeedback, s) + [] == AdviceIf(NegativeFeedback, s);
    assert AdviceFor(r4, s) == AdviceIf(AfternoonDip, s) + AdviceFor(r5, s);
    assert AdviceFor(r3, s) == AdviceIf(Enrichment, s) + AdviceFor(r4, s);
    assert AdviceFor(r2, s) == AdviceIf(Volatile, s) + AdviceFor(r3, s);
    assert AdviceFor(r1, s) == AdviceIf(Decline, s) + AdviceFor(r2, s);
    assert AdviceFor(RuleOrder, s) == AdviceIf(AcuteDrop, s) + AdviceFor(r1, s);
  }

  /** The rule-order advice as the pushes build it, one rule's pair
      appended after another. */
  lemma AdviceForInPushOrder(s: Summary)
    ensures AdviceFor(RuleOrder, s) ==
      AdviceIf(AcuteDrop, s) + AdviceIf(Decline, s) + AdviceIf(Volatile, s)
      + AdviceIf(Enrichment, s) + AdviceIf(AfternoonDip, s) + AdviceIf(NegativeFeedback, s)
  {
    AdviceForUnrolled(s);
    var a, b, c := AdviceIf(AcuteDrop, s), AdviceIf(Decline, s), AdviceIf(Volatile, s);
    var d, e, f := AdviceIf(Enrichment, s), AdviceIf(AfternoonDip, s), AdviceIf(NegativeFeedback, s);
    calc {
      a + (b + (c + (d + (e + f))));
      { Regroup(a, b, c + (d + (e + f))); }
      a + b + (c + (d + (e + f)));
      { Regroup(a + b, c, d + (e + f)); }
      a + b + c + (d + (e + f));
      { Regroup(a + b + c, d, e + f); }
      a + b + c + d + (e + f);
      { Regroup(a + b + c + d, e, f); }
      a + b + c + d + e + f;
    }
  }

  /** Concatenation regrouped to the left. */
  lemma Regroup(x: seq<Message>, y: seq<Message>, z: seq<Message>)
    ensures x + (y + z) == x + y + z
  {
  }

  /** averageEngagement: `null` for an empty history, otherwise the mean
      level and its band (the client prints the mean with two decimals). */
  function AverageEngagement(history: seq<Record>): (r: Option<(real, string)>)
    ensures r.None? <==> history == []
    ensures r.Some? ==> r.value.0 * |history| as real == Sum(LevelsOf(history)) as real
    ensures r.Some? ==> r.value.1 == Labels.AverageBand(r.value.0)
  {
    if history == [] then None
    else
      var avg := Mean(LevelsOf(history));
      Some((avg, Labels.AverageBand(avg)))
  }

  /** The fired rules each contribute two messages. */
  lemma {:induction false} AdviceForLength(rules: seq<Rule>, s: Summary)
    ensures |AdviceFor(rules, s)| == 2 * |FiredRules(rules, s)|
  {
    if rules != [] {
      AdviceForLength(rules[1..], s);
    }
  }

  /** The advice never contains the fallback message. */
  lemma {:induction false} AdviceForNotStable(rules: seq<Rule>, s: Summary)
    ensures Stable !in AdviceFor(rules, s)
  {
    if rules != [] {
      AdviceForNotStable(rules[1..], s);
    }
  }

  /** No advice exactly when no rule in `rules` fires. */
  lemma {:induction false} AdviceForEmpty(rules: seq<Rule>, s: Summary)
    ensures AdviceFor(rules, s) == [] <==> forall r :: r in rules ==> !Fires(r, s)
  {
    if rules != [] {
      AdviceForEmpty(rules[1..], s);
      assert forall r :: r in rules <==> r == rules[0] || r in rules[1..];
    }
  }

  /** The suggestions are empty exactly for the empty history. */
  lemma SuggestionsEmptyIff(history: seq<Record>)
    ensures Suggestions(history) == [] <==> history == []
  {
  }

  /** For any statistics there is either the fallback alone or an even
      number of messages from 2 to 12. */
  lemma SuggestionsLength(s: Summary)
    ensures var n := |SuggestionsOf(s)|; n == 1 || (n % 2 == 0 && 2 <= n <= 12)
  {
    AdviceForLength(RuleOrder, s);
  }

  /** The fallback appears exactly when no rule fires, and then alone. */
  lemma StableIffNoRuleFires(s: Summary)
    ensures Stable in SuggestionsOf(s) <==> forall r :: r in RuleOrder ==> !Fires(r, s)
    ensures Stable in SuggestionsOf(s) ==> SuggestionsOf(s) == [Stable]
  {
    AdviceForEmpty(RuleOrder, s);
    AdviceForNotStable(RuleOrder, s);
  }

  lemma {:induction false} AdviceForSplit(rules: seq<Rule>, k: nat, s: Summary)
    requires k < |rules|
    ensures AdviceFor(rules, s) == AdviceFor(rules[..k], s) + (AdviceIf(rules[k], s) + AdviceFor(rules[k + 1..], s))
  {
    if k == 0 {
      assert rules[..0] == [];
    } else {
      var rest := rules[1..];
      AdviceForSplit(rest, k - 1, s);
      assert rest[..k - 1] == rules[..k][1..];
      assert rest[k - 1] == rules[k];
      assert rest[k..] == rules[k + 1..];
      var first := AdviceIf(rules[0], s);
      var after := AdviceIf(rules[k], s) + AdviceFor(rules[k + 1..], s);
      assert AdviceFor(rules[..k], s) == first + AdviceFor(rest[..k - 1], s);
      Regroup(first, AdviceFor(rest[..k - 1], s), after);
    }
  }

  /** When the k-th rule fires, its two messages stand next to each other,
      right after the messages of the rules before it that fired. */
  lemma RuleAdviceAt(s: Summary, k: nat)
    requires k < |RuleOrder| && Fires(RuleOrder[k], s)
    ensures var m := |FiredRules(RuleOrder[..k], s)|;
      2 * m + 2 <= |SuggestionsOf(s)| &&
      SuggestionsOf(s)[2 * m..2 * m + 2] == Advice(RuleOrder[k])
  {
    AdviceForSplit(RuleOrder, k, s);
    AdviceForLength(RuleOrder[..k], s);
    var before := AdviceFor(RuleOrder[..k], s);
    var all := AdviceFor(RuleOrder, s);
    assert all == before + (Advice(RuleOrder[k]) + AdviceFor(RuleOrder[k + 1..], s));
    assert all[|before|..|before| + 2] == Advice(RuleOrder[k]);
  }

  /** A history whose every level is `c` has mean, recent mean and mode `c`
      and no variance. */
  lemma ConstantSummary(history: seq<Record>, c: int)
    requires history != []
    requires forall i :: 0 <= i < |history| ==> history[i].level == c
    ensures var s := Summarise(history);
      s.avg == c as real && s.recentAvg == c as real && s.variance == 0.0 && s.mode == c
  {
    var levels := LevelsOf(history);
    ConstantStatistics(levels, c);
    ConstantStatistics(Tail(levels, 5), c);
    ModeOfConstant(levels, c);
  }

  /** Steady statistics at level 2 with few afternoon lows and "boring"
      feedbacks fire only the enrichment rule. */
  lemma SteadyHighSummary(s: Summary)
    requires s.avg == 2.0 && s.recentAvg == 2.0 && s.variance == 0.0 && s.mode == 2
    requires s.afternoonLows <= 2 && s.boringFeedback <= 1
    ensures SuggestionsOf(s) == [Consistent, SupportPeers]
  {
    AdviceForUnrolled(s);
  }

  /** Steady statistics at level 0 with few afternoon lows and "boring"
      feedbacks fire only the acute-drop rule: the decline rule does not,
      because the recent mean equals the mean. */
  lemma SteadyLowSummary(s: Summary)
    requires s.avg == 0.0 && s.recentAvg == 0.0 && s.variance == 0.0
    requires s.afternoonLows <= 2 && s.boringFeedback <= 1
    ensures SuggestionsOf(s) == [VeryLowFocus, Multimedia]
  {
    AdviceForUnrolled(s);
  }

  /** A history of 2s with fewer than two "boring" feedbacks gets exactly
      the two enrichment messages. */
  lemma {:induction false} AllHighGetsEnrichmentOnly(history: seq<Record>)
    requires history != []
    requires forall i :: 0 <= i < |history| ==> history[i].level == 2
    requires BoringFeedbackCount(history) < 2
    ensures Suggestions(history) == [Consistent, SupportPeers]
  {
    ConstantSummary(history, 2);
    AfternoonLowCountZero(history);
    SteadyHighSummary(Summarise(history));
  }

  /** A history of 0s with at most two afternoon lows and at most one
      "boring" feedback gets exactly the acute-drop messages, and its
      average is reported as Low. */
  lemma {:induction false} AllLowGetsAcuteDropOnly(history: seq<Record>)
    requires history != []
    requires forall i :: 0 <= i < |history| ==> history[i].level == 0
    requires AfternoonLowCount(history) <= 2 && BoringFeedbackCount(history) <= 1
    ensures Suggestions(history) == [VeryLowFocus, Multimedia]
    ensures AverageEngagement(history) == Some((0.0, "Low"))
  {
    ConstantSummary(history, 0);
    SteadyLowSummary(Summarise(history));
  }

  /** Three level-0 records at 14:00 trigger both the acute-drop and the
      afternoon-dip rule. */
  lemma AfternoonLowsScenario()
    ensures var r := Record(0, Some(14), None);
      Suggestions([r, r, r]) == [VeryLowFocus, Multimedia, AfternoonLowNote, AudioVideo]
  {
    var r := Record(0, Some(14), None);
    var h := [r, r, r];
    ConstantSummary(h, 0);
    ThreeAfternoonLows(r);
    DippingSummary(Summarise(h));
  }

  /** Statistics steady at level 0 with more than two afternoon lows and at
      most one "boring" feedback fire the acute-drop and afternoon-dip
      rules. */
  lemma DippingSummary(s: Summary)
    requires s.avg == 0.0 && s.recentAvg == 0.0 && s.variance == 0.0
    requires s.afternoonLows > 2 && s.boringFeedback <= 1
    ensures SuggestionsOf(s) == [VeryLowFocus, Multimedia, AfternoonLowNote, AudioVideo]
  {
    AdviceForUnrolled(s);
  }

  /** Counting three afternoon-low records one prefix at a time. */
  lemma ThreeAfternoonLows(r: Record)
    requires AfternoonLow(r) && !BoringFeedback(r)
    ensures AfternoonLowCount([r, r, r]) == 3 && BoringFeedbackCount([r, r, r]) == 0
  {
    assert [r][..0] == [];
    assert AfternoonLowCount([r]) == 1 && BoringFeedbackCount([r]) == 0;
    assert [r, r][..1] == [r];
    assert AfternoonLowCount([r, r]) == 2 && BoringFeedbackCount([r, r]) == 0;
    assert [r, r, r][..2] == [r, r];
  }
}
