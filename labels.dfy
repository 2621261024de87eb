/** The engagement-level labels shown by the client. The same `switch` is
    written out in frontend/src/components/Suggestion.jsx (getLabel),
    frontend/src/components/History.jsx (getLabel),
    frontend/src/components/Dashboard.jsx (mapEngagementLabel),
    frontend-1/src/components/Suggestion.jsx and
    frontend-1/src/components/Suggestion.js (getLabel); it is modelled once. */
module Labels {
  import opened Values

  /** A `switch` on a JavaScript value with cases 0, 1 and 2. `switch`
      compares with `===`, so only the numbers 0, 1 and 2 select a label;
      the strings "0", "1", "2", `null` and everything else fall through to
      "Unknown". */
  function LabelOf(v: JsValue): (r: string)
    ensures r == "Low" <==> v == JsNum(0.0)
    ensures r == "Moderate" <==> v == JsNum(1.0)
    ensures r == "High" <==> v == JsNum(2.0)
    ensures r == "Unknown" <==> v !in {JsNum(0.0), JsNum(1.0), JsNum(2.0)}
  {
    match v
    case JsNum(x) =>
      if x == 0.0 then "Low"
      else if x == 1.0 then "Moderate"
      else if x == 2.0 then "High"
      else "Unknown"
    case _ => "Unknown"
  }

  /** The label of an integer engagement level. */
  function LevelLabel(level: int): (r: string)
    ensures r == "Low" <==> level == 0
    ensures r == "Moderate" <==> level == 1
    ensures r == "High" <==> level == 2
    ensures r == "Unknown" <==> !(0 <= level <= 2)
  {
    LabelOf(JsNum(level as real))
  }

  /** getAvgLabel: the band of an average level. */
  function AverageBand(avg: real): (r: string)
    ensures r == "Low" <==> avg < 0.8
    ensures r == "Moderate" <==> 0.8 <= avg < 1.5
    ensures r == "High" <==> 1.5 <= avg
  {
    if avg < 0.8 then "Low"
    else if avg < 1.5 then "Moderate"
    else "High"
  }

  /** The position of a band in Low < Moderate < High. */
  function BandRank(band: string): nat {
    if band == "Low" then 0 else if band == "Moderate" then 1 else 2
  }

  /** Banding is monotone: a higher average never gets a lower band. */
  lemma AverageBandMonotone(a: real, b: real)
    requires a <= b
    ensures BandRank(AverageBand(a)) <= BandRank(AverageBand(b))
  {
  }
}
