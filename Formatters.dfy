/** The number and label formatting of the customer-segmentation screens. The locale number
    formatter (`Intl.NumberFormat('es-MX')` with a fixed number of decimals) and
    `Number.prototype.toFixed` are foreign calls, so they are parameters; what is modelled is the
    normalisation and the threshold logic around them. */
module Formatters {
  import opened Prelude

  /** `formatNumber(value, decimals)`: the locale formatter. It receives a JS number, which may
      be NaN or infinite when the caller divided by zero. */
  type NumberFormat = (Number, nat) -> string

  /** `value.toFixed(digits)`. */
  type FixedFormat = (real, nat) -> string

  /** The value `formatPercent` formats: a value above 1 is taken as already being a
      percentage, any other value as a fraction. */
  function NormalizedPercent(value: real): (r: real)
    ensures value > 1.0 ==> r == value
    ensures value <= 1.0 ==> r == value * 100.0
  {
    if value > 1.0 then value else value * 100.0
  }

  /** A fraction of the unit interval becomes the percentage of 0..100 it stands for, and a
      percentage above 1 stays as it is; so 1 and 100 print alike, and no non-negative value
      prints below itself. */
  lemma NormalizedPercentRange(value: real)
    ensures 0.0 <= value <= 1.0 ==> 0.0 <= NormalizedPercent(value) <= 100.0
    ensures NormalizedPercent(1.0) == NormalizedPercent(100.0) == 100.0
    ensures value >= 0.0 ==> NormalizedPercent(value) >= value
  {
  }

  function FormatPercent(format: NumberFormat, value: real, decimals: nat): (s: string)
    ensures |s| > 0 && s[|s| - 1] == '%'
    ensures s[..|s| - 1] == format(Finite(NormalizedPercent(value)), decimals)
  {
    format(Finite(NormalizedPercent(value)), decimals) + "%"
  }

  /** How `formatCompact` scales a value: millions, thousands, or not at all. */
  datatype CompactScale = Millions | Thousands | Plain

  function CompactScaleOf(value: real): CompactScale
  {
    if value >= 1000000.0 then Millions else if value >= 1000.0 then Thousands else Plain
  }

  function Divisor(scale: CompactScale): real
  {
    match scale
    case Millions => 1000000.0
    case Thousands => 1000.0
    case Plain => 1.0
  }

  /** The scaled value is the original in the scale's unit, and the scale is the largest whose
      unit the value reaches: a thousands figure lies in [1, 1000), a millions figure is at least
      1, and an unscaled value is below 1000. */
  lemma CompactScaleMeaning(value: real)
    ensures var scale := CompactScaleOf(value);
      && (value / Divisor(scale)) * Divisor(scale) == value
      && (scale == Millions ==> value / Divisor(scale) >= 1.0)
      && (scale == Thousands ==> 1.0 <= value / Divisor(scale) < 1000.0)
      && (scale == Plain ==> value < 1000.0)
  {
  }

  /** `formatCompact`: one decimal with an `M` or `K` suffix, or the locale format without
      decimals for values below a thousand. */
  function FormatCompact(format: NumberFormat, fixed: FixedFormat, value: real): (s: string)
    ensures CompactScaleOf(value) == Millions ==> s == fixed(value / 1000000.0, 1) + "M"
    ensures CompactScaleOf(value) == Thousands ==> s == fixed(value / 1000.0, 1) + "K"
    ensures CompactScaleOf(value) == Plain ==> s == format(Finite(value), 0)
  {
    match CompactScaleOf(value)
    case Millions => fixed(value / Divisor(Millions), 1) + "M"
    case Thousands => fixed(value / Divisor(Thousands), 1) + "K"
    case Plain => format(Finite(value), 0)
  }

  /** `formatCompact` is monotone in its scale: a larger value never uses a smaller suffix. */
  lemma CompactScaleMonotone(a: real, b: real)
    requires a <= b
    ensures CompactScaleOf(a) == Millions ==> CompactScaleOf(b) == Millions
    ensures CompactScaleOf(a) == Thousands ==> CompactScaleOf(b) != Plain
  {
  }

  /** `formatRange`: both bounds without decimals, a spaced dash between them, then the unit. */
  function FormatRange(format: NumberFormat, min: real, max: real, unit: string): (s: string)
    ensures |s| == |format(Finite(min), 0)| + 3 + |format(Finite(max), 0)| + 1 + |unit|
    ensures s[..|format(Finite(min), 0)|] == format(Finite(min), 0)
    ensures s[|format(Finite(min), 0)|..|format(Finite(min), 0)| + 3] == " - "
    ensures s[|format(Finite(min), 0)| + 3..|s| - |unit| - 1] == format(Finite(max), 0)
    ensures s[|s| - |unit| - 1] == ' '
    ensures s[|s| - |unit|..] == unit
  {
    format(Finite(min), 0) + " - " + format(Finite(max), 0) + " " + unit
  }

  /** `formatGini`: the index as a percentage with two decimals. */
  function FormatGini(fixed: FixedFormat, value: real): (s: string)
    ensures |s| > 0 && s[|s| - 1] == '%'
    ensures s[..|s| - 1] == fixed(value * 100.0, 2)
  {
    fixed(value * 100.0, 2) + "%"
  }

  /** The five bands of the 80/60/40/20 thresholds, 4 being the highest. */
  function Band(percent: real): (b: nat)
    ensures b <= 4
  {
    if percent >= 80.0 then 4
    else if percent >= 60.0 then 3
    else if percent >= 40.0 then 2
    else if percent >= 20.0 then 1
    else 0
  }

  /** A value is in band `b` exactly when it reaches `20 * b` and, below the top band, stays
      under `20 * (b + 1)`; so the bands are monotone in the value. */
  lemma BandMeaning(percent: real, other: real)
    ensures var b := Band(percent);
      && (b > 0 ==> percent >= 20.0 * b as real)
      && (b < 4 ==> percent < 20.0 * (b + 1) as real)
    ensures percent <= other ==> Band(percent) <= Band(other)
  {
  }

  const PercentileClasses: seq<string> := [
    "text-red-600 bg-red-50 border-red-200",
    "text-orange-600 bg-orange-50 border-orange-200",
    "text-yellow-600 bg-yellow-50 border-yellow-200",
    "text-emerald-600 bg-emerald-50 border-emerald-200",
    "text-green-600 bg-green-50 border-green-200"]

  /** `getPercentileColor`. */
  function PercentileColor(percent: real): string
  {
    PercentileClasses[Band(percent)]
  }

  /** Two percentages get the same classes exactly when they fall in the same band. */
  lemma PercentileColorBands(a: real, b: real)
    ensures PercentileColor(a) == PercentileColor(b) <==> Band(a) == Band(b)
    ensures a >= 80.0 ==> PercentileColor(a) == "text-green-600 bg-green-50 border-green-200"
    ensures a < 20.0 ==> PercentileColor(a) == "text-red-600 bg-red-50 border-red-200"
  {
    var i, j := Band(a), Band(b);
    if i != j {
      assert PercentileClasses[i] != PercentileClasses[j] by {
        assert PercentileClasses[i][5] != PercentileClasses[j][5] || PercentileClasses[i][6] != PercentileClasses[j][6];
      }
    }
  }

  const StrategyClasses: map<string, string> := map[
    "retain" := "text-green-700 bg-green-100 border-green-300",
    "grow" := "text-blue-700 bg-blue-100 border-blue-300",
    "recover" := "text-orange-700 bg-orange-100 border-orange-300",
    "monitor" := "text-gray-700 bg-gray-100 border-gray-300"]

  /** `getStrategyColor`: the classes of a known strategy, those of `monitor` otherwise. */
  function StrategyColor(strategy: string): (s: string)
    ensures strategy in StrategyClasses ==> s == StrategyClasses[strategy]
    ensures strategy !in StrategyClasses ==> s == StrategyClasses["monitor"]
  {
    if strategy in StrategyClasses && StrategyClasses[strategy] != "" then StrategyClasses[strategy]
    else StrategyClasses["monitor"]
  }

  /** The four strategies get four different class lists. */
  lemma StrategyColorDistinct(a: string, b: string)
    requires a in StrategyClasses && b in StrategyClasses && a != b
    ensures StrategyColor(a) != StrategyColor(b)
  {
    assert StrategyColor(a)[5] != StrategyColor(b)[5] || StrategyColor(a)[7] != StrategyColor(b)[7];
  }
}
