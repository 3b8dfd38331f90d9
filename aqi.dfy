/** The AQI severity taxonomy of the dashboard: the threshold ladder of
    `get_AQI_category`, the category -> colour dictionary applied to the
    station ranking, the legend lists and the shaded bands of the daily
    chart. */
module Aqi {
  import opened Wrappers

  /** The six categories, in increasing severity. */
  datatype Category =
    | Good
    | Moderate
    | UnhealthyForSensitiveGroups
    | Unhealthy
    | VeryUnhealthy
    | Hazardous

  const SeverityOrder: seq<Category> :=
    [Good, Moderate, UnhealthyForSensitiveGroups, Unhealthy, VeryUnhealthy, Hazardous]

  /** Position of a category in `SeverityOrder`. */
  function Rank(c: Category): (r: nat)
    ensures r < |SeverityOrder| && SeverityOrder[r] == c
  {
    match c
    case Good => 0
    case Moderate => 1
    case UnhealthyForSensitiveGroups => 2
    case Unhealthy => 3
    case VeryUnhealthy => 4
    case Hazardous => 5
  }

  /** The string the dashboard stores in the `AQI_category` column. */
  function Label(c: Category): string
  {
    match c
    case Good => "Good"
    case Moderate => "Moderate"
    case UnhealthyForSensitiveGroups => "Unhealthy for Sensitive Groups"
    case Unhealthy => "Unhealthy"
    case VeryUnhealthy => "Very Unhealthy"
    case Hazardous => "Hazardous"
  }

  /** The inclusive upper bounds of the first five bands, in severity
      order; the last band has none. */
  const UpperBounds: seq<int> := [50, 100, 150, 200, 300]

  /** `x` lies in the band of `c`: above the previous band's upper bound
      (none for Good, so negative values are Good too) and at most its own
      (none for Hazardous). */
  ghost predicate InBand(x: real, c: Category)
  {
    var r := Rank(c);
    && (r == 0 || UpperBounds[r - 1] as real < x)
    && (r == |UpperBounds| || x <= UpperBounds[r] as real)
  }

  /** `get_AQI_category` on a number: the first band whose inclusive upper
      bound admits `x`. */
  function Classify(x: real): (c: Category)
    ensures InBand(x, c)
  {
    if x <= 50.0 then Good
    else if x <= 100.0 then Moderate
    else if x <= 150.0 then UnhealthyForSensitiveGroups
    else if x <= 200.0 then Unhealthy
    else if x <= 300.0 then VeryUnhealthy
    else Hazardous
  }

  /** `get_AQI_category` on a cell: a NaN fails every comparison of the
      ladder and falls through to the final `else`, which returns NaN. */
  function ClassifyValue(x: Option<real>): (c: Option<Category>)
    ensures c.Some? <==> x.Some?
    ensures x.Some? ==> InBand(x.value, c.value)
  {
    match x
    case None => None
    case Some(v) => Some(Classify(v))
  }

  // ---------------------------------------------------------------- colours

  /** The `color_mapping` dictionary, keyed by category label. */
  const ColorMapping: map<string, string> := map[
    "Good" := "green",
    "Moderate" := "yellow",
    "Unhealthy for Sensitive Groups" := "orange",
    "Unhealthy" := "red",
    "Very Unhealthy" := "purple",
    "Hazardous" := "maroon"
  ]

  /** The two lists the legend table is built from, zipped pairwise. */
  const LegendCategories: seq<string> :=
    ["Good", "Moderate", "Unhealthy for Sensitive Groups", "Unhealthy", "Very Unhealthy", "Hazardous"]
  const LegendColors: seq<string> := ["green", "yellow", "orange", "red", "purple", "maroon"]

  /** One shaded rectangle of the daily AQI chart: from `y0` to `y1`. */
  datatype Band = Band(y0: int, y1: int, fill: string)

  const BandShapes: seq<Band> := [
    Band(0, 50, "green"),
    Band(50, 100, "yellow"),
    Band(100, 150, "orange"),
    Band(150, 200, "red"),
    Band(200, 300, "purple"),
    Band(300, 400, "maroon")
  ]

  /** `AQI_category.map(color_mapping)`: the colour of a category, NaN for
      NaN and for a label the dictionary does not hold. The colour is the
      legend colour of the category's severity rank. */
  function ColorOf(c: Option<Category>): (r: Option<string>)
    ensures r.Some? <==> c.Some?
    ensures c.Some? ==> r.value == LegendColors[Rank(c.value)]
  {
    match c
    case None => None
    case Some(k) =>
      if Label(k) in ColorMapping then Some(ColorMapping[Label(k)]) else None
  }

  // ---------------------------------------------------------------- lemmas

  /** Each band includes its upper bound: 50 is Good, 100 Moderate, and so
      on; anything above 300 is Hazardous, and negative values are Good. */
  lemma ClassifyBoundaries(x: real)
    ensures Classify(50.0) == Good && Classify(100.0) == Moderate
    ensures Classify(150.0) == UnhealthyForSensitiveGroups && Classify(200.0) == Unhealthy
    ensures Classify(300.0) == VeryUnhealthy
    ensures x > 300.0 ==> Classify(x) == Hazardous
    ensures x < 0.0 ==> Classify(x) == Good
  {
  }

  /** The bands partition the number line: a value lies in exactly one, so
      `InBand` alone determines the classifier. */
  lemma BandsAreDisjoint(x: real, c: Category, d: Category)
    requires InBand(x, c) && InBand(x, d)
    ensures c == d
  {
  }

  lemma ClassifyIsTheBand(x: real, c: Category)
    ensures Classify(x) == c <==> InBand(x, c)
  {
    if InBand(x, c) {
      BandsAreDisjoint(x, c, Classify(x));
    }
  }

  /** A higher AQI never gets a less severe category. */
  lemma ClassifyMonotone(x: real, y: real)
    requires x <= y
    ensures Rank(Classify(x)) <= Rank(Classify(y))
  {
  }

  /** The dictionary has a colour for every category label and for nothing
      else, and no two categories share a colour. */
  lemma ColorMappingTotalAndInjective()
    ensures ColorMapping.Keys == set c: Category :: Label(c)
    ensures forall a, b :: a in ColorMapping && b in ColorMapping && a != b ==> ColorMapping[a] != ColorMapping[b]
  {
    var labels := set c: Category :: Label(c);
    assert Label(Good) in labels && Label(Moderate) in labels;
    assert Label(UnhealthyForSensitiveGroups) in labels && Label(Unhealthy) in labels;
    assert Label(VeryUnhealthy) in labels && Label(Hazardous) in labels;
  }

  /** Legend row i names category i of the severity order and shows the
      colour the dictionary gives it. */
  lemma LegendAgreesWithColorMapping()
    ensures |LegendCategories| == |LegendColors| == |SeverityOrder|
    ensures forall i :: 0 <= i < |SeverityOrder| ==>
              && LegendCategories[i] == Label(SeverityOrder[i])
              && LegendCategories[i] in ColorMapping
              && ColorMapping[LegendCategories[i]] == LegendColors[i]
  {
  }

  /** Band rectangle i has category i's colour, the rectangles are
      contiguous, and every AQI strictly above a rectangle's bottom and up
      to its top is classified as category i. */
  lemma BandShapesAgreeWithClassifier()
    ensures |BandShapes| == |SeverityOrder|
    ensures forall i :: 0 <= i < |BandShapes| ==> BandShapes[i].fill == LegendColors[i]
    ensures forall i :: 0 < i < |BandShapes| ==> BandShapes[i].y0 == BandShapes[i - 1].y1
    ensures forall i :: 0 <= i < |UpperBounds| ==> BandShapes[i].y1 == UpperBounds[i]
    ensures forall i, x: real ::
              0 <= i < |BandShapes| && BandShapes[i].y0 as real < x <= BandShapes[i].y1 as real ==>
                Classify(x) == SeverityOrder[i]
  {
  }
}
