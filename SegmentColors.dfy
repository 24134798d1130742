/** The colour palettes of the customer segments: one per grouping (quintiles, quartiles,
    deciles), ordered from the best segment to the worst, with percentiles mapped onto the
    quintile colours. */
module SegmentColors {
  import opened Prelude
  import Formatters

  datatype SegmentColor = SegmentColor(bg: string, border: string, text: string, hex: string)

  const Green := SegmentColor("bg-green-50", "border-green-300", "text-green-700", "#10b981")
  const Emerald := SegmentColor("bg-emerald-50", "border-emerald-300", "text-emerald-700", "#34d399")
  const Yellow := SegmentColor("bg-yellow-50", "border-yellow-300", "text-yellow-700", "#fbbf24")
  const Orange := SegmentColor("bg-orange-50", "border-orange-300", "text-orange-700", "#fb923c")
  const Red := SegmentColor("bg-red-50", "border-red-300", "text-red-700", "#f87171")

  const Quintiles: seq<SegmentColor> := [Green, Emerald, Yellow, Orange, Red]
  const Quartiles: seq<SegmentColor> := [Green, Emerald, Orange, Red]
  const Deciles: seq<SegmentColor> := [
    Green,
    SegmentColor("bg-green-50", "border-green-200", "text-green-600", "#22c55e"),
    Emerald,
    SegmentColor("bg-emerald-50", "border-emerald-200", "text-emerald-600", "#10b981"),
    Yellow,
    SegmentColor("bg-yellow-50", "border-yellow-200", "text-yellow-600", "#fde047"),
    Orange,
    SegmentColor("bg-orange-50", "border-orange-200", "text-orange-600", "#fdba74"),
    Red,
    SegmentColor("bg-red-50", "border-red-200", "text-red-600", "#fca5a5")]

  /** `colorPalette[groupType] || colorPalette.quintiles`: the group type is a string, and any
      type without a palette of its own (percentiles among them) falls back to quintiles. */
  function Palette(groupType: string): (p: seq<SegmentColor>)
    ensures groupType == "quartiles" ==> |p| == 4
    ensures groupType == "deciles" ==> |p| == 10
    ensures groupType != "quartiles" && groupType != "deciles" ==> p == Quintiles && |p| == 5
  {
    match groupType
    case "quintiles" => Quintiles
    case "quartiles" => Quartiles
    case "deciles" => Deciles
    case _ => Quintiles
  }

  /** `interpolatePercentileColor`: `floor(i / 100 * 4)`, capped at the last quintile. A
      negative index reads past the front of the palette and yields no colour. */
  function PercentileColor(percentileIndex: int): Option<SegmentColor>
  {
    var baseIndex := Min((4 * percentileIndex) / 100, |Quintiles| - 1);
    if baseIndex < 0 then None else Some(Quintiles[baseIndex])
  }

  /** `getSegmentColor`: percentiles are interpolated, other types clamp the index to the last
      colour of their palette. A negative index yields no colour. */
  function SegmentColorOf(segmentIndex: int, groupType: string): Option<SegmentColor>
  {
    if groupType == "percentiles" then PercentileColor(segmentIndex)
    else
      var palette := Palette(groupType);
      var index := Min(segmentIndex, |palette| - 1);
      if index < 0 then None else Some(palette[index])
  }

  /** Outside percentiles, a segment takes the colour at its own index, and every index past the
      end takes the palette's last (worst) colour. */
  lemma SegmentColorClamps(segmentIndex: int, groupType: string)
    requires groupType != "percentiles" && segmentIndex >= 0
    ensures var palette := Palette(groupType);
      && (segmentIndex < |palette| ==> SegmentColorOf(segmentIndex, groupType) == Some(palette[segmentIndex]))
      && (segmentIndex >= |palette| ==> SegmentColorOf(segmentIndex, groupType) == Some(palette[|palette| - 1]))
  {
  }

  /** Percentile `i` takes quintile colour `min(floor(i / 25), 4)`: 0..24 the best colour,
      25..49 the second, 50..74 the third, 75..99 the fourth; the worst colour starts at 100. */
  lemma PercentileQuintile(i: int)
    requires i >= 0
    ensures PercentileColor(i) == Some(Quintiles[Min(i / 25, 4)])
    ensures i < 100 ==> PercentileColor(i) != Some(Red)
  {
    assert (4 * i) / 100 == i / 25;
  }

  /** `getChartColors`: the palette's hex codes, in order. */
  function ChartColors(groupType: string): (hexes: seq<string>)
    ensures |hexes| == |Palette(groupType)|
    ensures forall i :: 0 <= i < |hexes| ==> hexes[i] == Palette(groupType)[i].hex
  {
    seq(|Palette(groupType)|, i requires 0 <= i < |Palette(groupType)| => Palette(groupType)[i].hex)
  }

  const ProgressColors: seq<string> := ["bg-red-500", "bg-orange-500", "bg-yellow-500", "bg-emerald-500", "bg-green-500"]

  /** `getProgressColor`: the colour of the 80/60/40/20 band of the accumulated percentage. */
  function ProgressColor(accumulatedPercent: real): string
  {
    ProgressColors[Formatters.Band(accumulatedPercent)]
  }

  /** The progress colour only ever improves as the percentage grows: its position in the
      red..green scale is monotone. */
  lemma ProgressColorMonotone(a: real, b: real)
    requires a <= b
    ensures ProgressColor(a) == ProgressColors[Formatters.Band(a)]
    ensures Formatters.Band(a) <= Formatters.Band(b)
    ensures a >= 80.0 ==> ProgressColor(b) == "bg-green-500"
    ensures b < 20.0 ==> ProgressColor(a) == "bg-red-500"
  {
    Formatters.BandMeaning(a, b);
  }

  const BadgeSuffix := " border px-3 py-1 rounded-lg font-semibold text-sm"

  /** `getSegmentBadgeClasses`: the colour's background, border and text classes, then the
      fixed badge classes. */
  function BadgeClasses(segmentIndex: int, groupType: string): (r: Option<string>)
    ensures r.Some? <==> SegmentColorOf(segmentIndex, groupType).Some?
    ensures r.Some? ==> var c := SegmentColorOf(segmentIndex, groupType).value;
      r.value == c.bg + " " + c.border + " " + c.text + BadgeSuffix
  {
    match SegmentColorOf(segmentIndex, groupType)
    case None => None
    case Some(c) => Some(c.bg + " " + c.border + " " + c.text + BadgeSuffix)
  }
}
