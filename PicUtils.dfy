/** The PIC sales report: the pivot of the flat month/year records into twelve month rows, and
    the table built from those rows (year totals, year-over-year comparison, the rule that hides
    the comparison of months that have not closed, and the footer). */
module PicUtils {
  import opened Prelude
  import opened Sorting

  const ChartColors: seq<string> := ["#2563eb", "#9333ea", "#db2777", "#f97316", "#16a34a", "#0891b2", "#facc15"]
  const ChartColorsGreen: seq<string> := ["#22c55e", "#16a34a", "#15803d", "#14532d"]
  const MonthNames: seq<string> := ["Enero", "Febrero", "Marzo", "Abril", "Mayo", "Junio", "Julio",
    "Agosto", "Septiembre", "Octubre", "Noviembre", "Diciembre"]

  /** The metric a report shows: sales in pesos, sales in kilos (with the kilo targets), or the
      average price per kilo. */
  datatype Metric = Pesos | Kilos | Promedio

  /** A flat record from the server. `mes` is the month as `parseInt` reads it (`None` when it
      is not a number); `anio` is the year as text; absent measures are `None`. */
  datatype PicRecord = PicRecord(
    mes: Option<int>,
    anio: string,
    totalVentaPesos: Option<real>,
    totalVentaKg: Option<real>,
    totalMetasKg: Option<real>)

  /** A month row: its name, its number 1..12, and one value per key (a year, or `meta_<year>`
      for that year's target). */
  datatype ChartRow = ChartRow(nombre: string, mesIndex: int, values: map<string, real>)

  function MetaKey(year: string): string
  {
    "meta_" + year
  }

  lemma MetaKeyInjective(a: string, b: string)
    requires MetaKey(a) == MetaKey(b)
    ensures a == b
  {
    assert a == MetaKey(a)[5..] && b == MetaKey(b)[5..];
  }

  /** No requested year has the shape of another year's target key (true of numeric years). */
  predicate NoMetaYear(years: seq<string>)
  {
    forall a, b :: a in years && b in years ==> a != MetaKey(b)
  }

  /** `row[key] || 0`: a missing value reads as 0. */
  function Get(values: map<string, real>, key: string): real
  {
    if key in values then values[key] else 0.0
  }

  /** Pesos per kilo, 0 when there are no kilos. */
  function PricePerKilo(pesos: real, kilos: real): real
  {
    if kilos != 0.0 then pesos / kilos else 0.0
  }

  lemma PricePerKiloMeaning(pesos: real, kilos: real)
    ensures kilos != 0.0 ==> PricePerKilo(pesos, kilos) * kilos == pesos
    ensures kilos == 0.0 ==> PricePerKilo(pesos, kilos) == 0.0
  {
  }

  /** `a / b * 100`, 0 when `b` is 0: the growth and target-attainment percentages. */
  function PercentOf(a: real, b: real): real
  {
    if b != 0.0 then a / b * 100.0 else 0.0
  }

  lemma PercentOfMeaning(a: real, b: real)
    ensures b != 0.0 ==> PercentOf(a, b) * b == a * 100.0
    ensures b == 0.0 ==> PercentOf(a, b) == 0.0
  {
    if b != 0.0 {
      assert a / b * b == a;
      calc {
        PercentOf(a, b) * b;
        (a / b * 100.0) * b;
        (a / b * b) * 100.0;
      }
    }
  }

  // ---------------------------------------------------------------------------------------
  // processChartData
  // ---------------------------------------------------------------------------------------

  /** The keys every row starts with: each year and its target key. */
  function YearKeys(years: seq<string>): set<string>
  {
    (set y | y in years) + (set y | y in years :: MetaKey(y))
  }

  function ZeroValues(years: seq<string>): map<string, real>
  {
    map k | k in YearKeys(years) :: 0.0
  }

  function InitialRows(years: seq<string>): (rows: seq<ChartRow>)
    ensures |rows| == 12
  {
    seq(12, i requires 0 <= i < 12 => ChartRow(MonthNames[i], i + 1, ZeroValues(years)))
  }

  /** A record lands in a row when its month is 1..12 and its year was requested. */
  predicate Placed(item: PicRecord, years: seq<string>)
  {
    item.mes.Some? && 1 <= item.mes.value <= 12 && item.anio in years
  }

  /** The value a record contributes for the metric. */
  function RecordValue(item: PicRecord, metric: Metric): real
  {
    match metric
    case Pesos => OrZero(item.totalVentaPesos)
    case Kilos => OrZero(item.totalVentaKg)
    case Promedio => PricePerKilo(OrZero(item.totalVentaPesos), OrZero(item.totalVentaKg))
  }

  /** Writes a record's value (and, for kilos, its target) over the row's previous ones. */
  function Place(row: ChartRow, item: PicRecord, metric: Metric): ChartRow
  {
    var v := row.values[item.anio := RecordValue(item, metric)];
    row.(values := if metric == Kilos then v[MetaKey(item.anio) := OrZero(item.totalMetasKg)] else v)
  }

  /** The pivot after the records of `raw`, taken in order. */
  function ChartData(raw: seq<PicRecord>, years: seq<string>, metric: Metric): (rows: seq<ChartRow>)
    ensures |rows| == 12
  {
    if raw == [] then InitialRows(years)
    else
      var rows := ChartData(raw[..|raw| - 1], years, metric);
      var item := raw[|raw| - 1];
      if Placed(item, years) then rows[item.mes.value - 1 := Place(rows[item.mes.value - 1], item, metric)]
      else rows
  }

  method ProcessChartData(raw: seq<PicRecord>, years: seq<string>, metric: Metric) returns (processed: seq<ChartRow>)
    ensures processed == ChartData(raw, years, metric)
  {
    processed := InitialRows(years);
    var i := 0;
    while i < |raw|
      invariant 0 <= i <= |raw|
      invariant processed == ChartData(raw[..i], years, metric)
    {
      var item := raw[i];
      assert raw[..i + 1][..i] == raw[..i];
      if item.mes.Some? && 0 <= item.mes.value - 1 < 12 && item.anio in years {
        var m := item.mes.value - 1;
        var row := processed[m];
        match metric {
          case Pesos =>
            row := row.(values := row.values[item.anio := OrZero(item.totalVentaPesos)]);
          case Kilos =>
            row := row.(values := row.values[item.anio := OrZero(item.totalVentaKg)]);
            row := row.(values := row.values[MetaKey(item.anio) := OrZero(item.totalMetasKg)]);
          case Promedio =>
            var venta := OrZero(item.totalVentaPesos);
            var kilos := OrZero(item.totalVentaKg);
            row := row.(values := row.values[item.anio := if kilos != 0.0 then venta / kilos else 0.0]);
        }
        processed := processed[m := row];
      }
      i := i + 1;
    }
    assert raw[..|raw|] == raw;
  }

  /** Twelve rows, January first, each carrying exactly the requested years and their targets. */
  lemma {:induction false} ChartDataShape(raw: seq<PicRecord>, years: seq<string>, metric: Metric)
    ensures forall i :: 0 <= i < 12 ==>
      && ChartData(raw, years, metric)[i].nombre == MonthNames[i]
      && ChartData(raw, years, metric)[i].mesIndex == i + 1
      && ChartData(raw, years, metric)[i].values.Keys == YearKeys(years)
  {
    if raw != [] {
      var item := raw[|raw| - 1];
      ChartDataShape(raw[..|raw| - 1], years, metric);
      if Placed(item, years) {
        assert item.anio in YearKeys(years) && MetaKey(item.anio) in YearKeys(years);
      }
    } else {
      forall i | 0 <= i < 12
        ensures InitialRows(years)[i].values.Keys == YearKeys(years)
      {
        assert InitialRows(years)[i].values == ZeroValues(years);
      }
    }
  }

  /** A record with a month outside 1..12 or an unrequested year changes nothing. */
  lemma IgnoredRecord(raw: seq<PicRecord>, item: PicRecord, years: seq<string>, metric: Metric)
    requires !Placed(item, years)
    ensures ChartData(raw + [item], years, metric) == ChartData(raw, years, metric)
  {
    assert (raw + [item])[..|raw|] == raw;
  }

  predicate Matches(item: PicRecord, month: int, year: string)
  {
    item.mes == Some(month) && item.anio == year
  }

  /** The index of the last record for this month and year. */
  function LastMatch(raw: seq<PicRecord>, month: int, year: string): (k: Option<nat>)
    ensures k.Some? ==> k.value < |raw| && Matches(raw[k.value], month, year)
    ensures k.Some? ==> forall j :: k.value < j < |raw| ==> !Matches(raw[j], month, year)
    ensures k.None? ==> forall j :: 0 <= j < |raw| ==> !Matches(raw[j], month, year)
  {
    if raw == [] then None
    else if Matches(raw[|raw| - 1], month, year) then Some(|raw| - 1)
    else LastMatch(raw[..|raw| - 1], month, year)
  }

  /** Each cell holds the value of the LAST record for its month and year (later records
      overwrite, they are not added up), or 0 when there is none; the target cell likewise
      for kilos, and stays 0 for the other metrics. */
  lemma {:induction false} ChartDataCell(raw: seq<PicRecord>, years: seq<string>, metric: Metric, m: nat, y: string)
    requires NoMetaYear(years) && m < 12 && y in years
    ensures Get(ChartData(raw, years, metric)[m].values, y) ==
      match LastMatch(raw, m + 1, y)
      case None => 0.0
      case Some(k) => RecordValue(raw[k], metric)
    ensures Get(ChartData(raw, years, metric)[m].values, MetaKey(y)) ==
      if metric == Kilos && LastMatch(raw, m + 1, y).Some? then OrZero(raw[LastMatch(raw, m + 1, y).value].totalMetasKg)
      else 0.0
  {
    if raw == [] {
      assert y in YearKeys(years) && MetaKey(y) in YearKeys(years);
      assert ChartData(raw, years, metric)[m].values == ZeroValues(years);
    } else {
      var p := raw[..|raw| - 1];
      var item := raw[|raw| - 1];
      ChartDataCell(p, years, metric, m, y);
      if Placed(item, years) && item.mes.value - 1 == m {
        assert y != MetaKey(item.anio) && item.anio != MetaKey(y);
        if item.anio != y {
          assert MetaKey(item.anio) != MetaKey(y) by {
            if MetaKey(item.anio) == MetaKey(y) {
              MetaKeyInjective(item.anio, y);
            }
          }
        }
      }
    }
  }

  // ---------------------------------------------------------------------------------------
  // calculateTableData
  // ---------------------------------------------------------------------------------------

  /** The calendar date the table is built on (`new Date()`): month 1..12 and year. */
  datatype Today = Today(month: int, year: int)

  datatype MetaComparison = MetaComparison(diffMeta: real, varMeta: real)

  /** The comparison fields of a row or of the footer: absent (no previous year), all null
      (hidden), or present with the target fields only for kilos. */
  datatype Comparison =
    | NoComparison
    | Hidden
    | Shown(diff: real, growth: real, meta: Option<MetaComparison>)

  datatype TableRow = TableRow(row: ChartRow, comparison: Comparison)

  datatype Footer = Footer(values: map<string, real>, comparison: Comparison)

  datatype Table = Table(
    rows: seq<TableRow>,
    footer: Footer,
    sortedYears: seq<string>,
    currentYear: Option<string>,
    prevYear: Option<string>)

  function CurrentYear(sorted: seq<string>): Option<string>
  {
    if |sorted| > 0 then Some(sorted[|sorted| - 1]) else None
  }

  function PrevYear(sorted: seq<string>): Option<string>
  {
    if |sorted| > 1 then Some(sorted[|sorted| - 2]) else None
  }

  /** `String(currentYear)`: the year, or "undefined" when no year was requested. */
  function YearText(year: Option<string>): string
  {
    if year.Some? then year.value else "undefined"
  }

  /** Future months of the running year, and its current month while it is frozen, are not
      compared. */
  predicate HideDiff(row: ChartRow, currentYear: Option<string>, today: Today, isFrozen: bool)
  {
    && YearText(currentYear) == IntToString(today.year)
    && (row.mesIndex > today.month || (row.mesIndex == today.month && isFrozen))
  }

  function CompareRow(row: ChartRow, currentYear: Option<string>, prevYear: Option<string>, metric: Metric,
                      isFrozen: bool, today: Today): Comparison
  {
    if !Truthy(prevYear) then NoComparison
    else if HideDiff(row, currentYear, today, isFrozen) then Hidden
    else
      var curr := Get(row.values, YearText(currentYear));
      var prev := Get(row.values, prevYear.value);
      var meta := Get(row.values, MetaKey(YearText(currentYear)));
      Shown(curr - prev, PercentOf(curr - prev, prev),
        if metric == Kilos then Some(MetaComparison(curr - meta, PercentOf(curr, meta))) else None)
  }

  function InitialTotals(sorted: seq<string>, metric: Metric): map<string, real>
  {
    var t := map y | y in sorted :: 0.0;
    if metric == Kilos then t[MetaKey(YearText(CurrentYear(sorted))) := 0.0] else t
  }

  /** One row's contribution, year by year in the order of `ys`. */
  function AddYears(totals: map<string, real>, row: ChartRow, ys: seq<string>, currentYear: Option<string>,
                    metric: Metric): map<string, real>
  {
    if ys == [] then totals
    else AddYear(AddYears(totals, row, ys[..|ys| - 1], currentYear, metric), row, ys[|ys| - 1], currentYear, metric)
  }

  /** One year's contribution: the row's value for `y`, and for the kilos of the current year
      its target as well. */
  function AddYear(t: map<string, real>, row: ChartRow, y: string, currentYear: Option<string>, metric: Metric): map<string, real>
  {
    var t := t[y := Get(t, y) + Get(row.values, y)];
    if metric == Kilos && y == YearText(currentYear) then t[MetaKey(y) := Get(t, MetaKey(y)) + Get(row.values, MetaKey(y))]
    else t
  }

  lemma AddYearsStep(totals: map<string, real>, row: ChartRow, ys: seq<string>, j: nat, currentYear: Option<string>,
                     metric: Metric)
    requires j < |ys|
    ensures AddYears(totals, row, ys[..j + 1], currentYear, metric) ==
      AddYear(AddYears(totals, row, ys[..j], currentYear, metric), row, ys[j], currentYear, metric)
  {
    assert ys[..j + 1][..j] == ys[..j];
  }

  /** The footer accumulators after the rows of `rows`. */
  function Totals(rows: seq<ChartRow>, sorted: seq<string>, metric: Metric): map<string, real>
  {
    if rows == [] then InitialTotals(sorted, metric)
    else AddYears(Totals(rows[..|rows| - 1], sorted, metric), rows[|rows| - 1], sorted, CurrentYear(sorted), metric)
  }

  /** The number of rows with a positive value for `key`. */
  function CountPositive(rows: seq<ChartRow>, key: string): (n: nat)
    ensures n <= |rows|
  {
    if rows == [] then 0
    else CountPositive(rows[..|rows| - 1], key) + (if Get(rows[|rows| - 1].values, key) > 0.0 then 1 else 0)
  }

  /** For the average price the footer shows, per year, the mean over the months with a
      positive value instead of the sum. */
  function AverageFooter(f: map<string, real>, rows: seq<ChartRow>, c: string, p: string): map<string, real>
  {
    var nc := CountPositive(rows, c);
    var np := CountPositive(rows, p);
    var f := f[c := if nc > 0 then Get(f, c) / (nc as real) else 0.0];
    f[p := if np > 0 then Get(f, p) / (np as real) else 0.0]
  }

  function FooterOf(totals: map<string, real>, rows: seq<ChartRow>, sorted: seq<string>, metric: Metric): Footer
  {
    var prevYear := PrevYear(sorted);
    if !Truthy(prevYear) then Footer(totals, NoComparison)
    else
      var c := YearText(CurrentYear(sorted));
      var p := prevYear.value;
      var f := if metric == Promedio then AverageFooter(totals, rows, c, p) else totals;
      var finalCurr := Get(f, c);
      var finalPrev := Get(f, p);
      var totalCurr := Get(totals, c);
      var totalMeta := Get(totals, MetaKey(c));
      Footer(f, Shown(finalCurr - finalPrev, PercentOf(finalCurr - finalPrev, finalPrev),
        if metric == Kilos then Some(MetaComparison(totalCurr - totalMeta, PercentOf(totalCurr, totalMeta))) else None))
  }

  function CompareRows(processed: seq<ChartRow>, sorted: seq<string>, metric: Metric, isFrozen: bool,
                       today: Today): (rows: seq<TableRow>)
    ensures |rows| == |processed|
  {
    seq(|processed|, i requires 0 <= i < |processed| =>
      TableRow(processed[i], CompareRow(processed[i], CurrentYear(sorted), PrevYear(sorted), metric, isFrozen, today)))
  }

  function TableData(processed: seq<ChartRow>, years: seq<string>, metric: Metric, isFrozen: bool, today: Today): Table
  {
    var sorted := Sort(years, LexLe);
    Table(
      CompareRows(processed, sorted, metric, isFrozen, today),
      FooterOf(Totals(processed, sorted, metric), processed, sorted, metric),
      sorted, CurrentYear(sorted), PrevYear(sorted))
  }

  /** Accumulates one row into the totals, year by year. */
  method AccumulateRow(totals: map<string, real>, row: ChartRow, sorted: seq<string>, currentYear: Option<string>,
                       metric: Metric) returns (t: map<string, real>)
    ensures t == AddYears(totals, row, sorted, currentYear, metric)
  {
    t := totals;
    var j := 0;
    while j < |sorted|
      invariant 0 <= j <= |sorted|
      invariant t == AddYears(totals, row, sorted[..j], currentYear, metric)
    {
      AddYearsStep(totals, row, sorted, j, currentYear, metric);
      t := AddYear(t, row, sorted[j], currentYear, metric);
      j := j + 1;
    }
    assert sorted[..|sorted|] == sorted;
  }

  /** The month rows under the comparison fields. */
  function Bases(rows: seq<TableRow>): (r: seq<ChartRow>)
    ensures |r| == |rows| && forall i :: 0 <= i < |rows| ==> r[i] == rows[i].row
  {
    seq(|rows|, i requires 0 <= i < |rows| => rows[i].row)
  }

  /** Counts, in one pass, the rows with a positive current-year and previous-year value. */
  method CountMonthsWithData(rows: seq<TableRow>, c: string, p: string) returns (countCurr: nat, countPrev: nat)
    ensures countCurr == CountPositive(Bases(rows), c) && countPrev == CountPositive(Bases(rows), p)
  {
    ghost var base := Bases(rows);
    countCurr, countPrev := 0, 0;
    var k := 0;
    while k < |rows|
      invariant 0 <= k <= |rows|
      invariant countCurr == CountPositive(base[..k], c) && countPrev == CountPositive(base[..k], p)
    {
      assert base[..k + 1][..k] == base[..k];
      if Get(rows[k].row.values, c) > 0.0 {
        countCurr := countCurr + 1;
      }
      if Get(rows[k].row.values, p) > 0.0 {
        countPrev := countPrev + 1;
      }
      k := k + 1;
    }
    assert base[..|rows|] == base;
  }

  /** The comparison fields of one row. */
  method CompareOne(row: ChartRow, currentYear: Option<string>, prevYear: Option<string>, metric: Metric,
                    isFrozen: bool, today: Today) returns (comparison: Comparison)
    ensures comparison == CompareRow(row, currentYear, prevYear, metric, isFrozen, today)
  {
    comparison := NoComparison;
    if prevYear.Some? && prevYear.value != "" {
      var realYear := IntToString(today.year);
      var isCurrentMonth := YearText(currentYear) == realYear && row.mesIndex == today.month;
      var isFutureMonth := YearText(currentYear) == realYear && row.mesIndex > today.month;
      if isFutureMonth || (isCurrentMonth && isFrozen) {
        comparison := Hidden;
      } else {
        var valCurr := Get(row.values, YearText(currentYear));
        var valPrev := Get(row.values, prevYear.value);
        var diff := valCurr - valPrev;
        var growth := PercentOf(diff, valPrev);
        var meta := None;
        if metric == Kilos {
          var target := Get(row.values, MetaKey(YearText(currentYear)));
          meta := Some(MetaComparison(valCurr - target, PercentOf(valCurr, target)));
        }
        comparison := Shown(diff, growth, meta);
      }
    }
  }

  /** The footer: the totals, adjusted to averages for the average price, and their comparison. */
  method BuildFooter(totals: map<string, real>, rows: seq<TableRow>, sorted: seq<string>, metric: Metric)
    returns (footer: Footer)
    ensures footer == FooterOf(totals, Bases(rows), sorted, metric)
  {
    var currentYear := if |sorted| > 0 then Some(sorted[|sorted| - 1]) else None;
    var prevYear := if |sorted| > 1 then Some(sorted[|sorted| - 2]) else None;
    var values := totals;
    var comparison := NoComparison;
    assert currentYear == CurrentYear(sorted) && prevYear == PrevYear(sorted);
    if prevYear.Some? && prevYear.value != "" {
      var c := YearText(currentYear);
      var p := prevYear.value;
      if metric == Promedio {
        var countCurr, countPrev := CountMonthsWithData(rows, c, p);
        values := values[c := if countCurr > 0 then Get(values, c) / (countCurr as real) else 0.0];
        values := values[p := if countPrev > 0 then Get(values, p) / (countPrev as real) else 0.0];
      }
      assert values == if metric == Promedio then AverageFooter(totals, Bases(rows), c, p) else totals;
      var finalCurr := Get(values, c);
      var finalPrev := Get(values, p);
      var diff := finalCurr - finalPrev;
      var meta := None;
      if metric == Kilos {
        var totalCurr := Get(totals, c);
        var totalMeta := Get(totals, MetaKey(c));
        meta := Some(MetaComparison(totalCurr - totalMeta, PercentOf(totalCurr, totalMeta)));
      }
      comparison := Shown(diff, PercentOf(diff, finalPrev), meta);
    }
    footer := Footer(values, comparison);
  }

  /** The pass over the month rows: accumulates the totals and adds each row's comparison. */
  method ProcessRows(processed: seq<ChartRow>, sortedYears: seq<string>, metric: Metric, isFrozen: bool, today: Today)
    returns (rows: seq<TableRow>, totals: map<string, real>)
    ensures rows == CompareRows(processed, sortedYears, metric, isFrozen, today)
    ensures totals == Totals(processed, sortedYears, metric)
  {
    var currentYear := if |sortedYears| > 0 then Some(sortedYears[|sortedYears| - 1]) else None;
    var prevYear := if |sortedYears| > 1 then Some(sortedYears[|sortedYears| - 2]) else None;

    totals := map y | y in sortedYears :: 0.0;
    if metric == Kilos {
      totals := totals[MetaKey(YearText(currentYear)) := 0.0];
    }

    rows := [];
    var i := 0;
    while i < |processed|
      invariant 0 <= i <= |processed|
      invariant totals == Totals(processed[..i], sortedYears, metric)
      invariant |rows| == i
      invariant forall k :: 0 <= k < i ==>
        rows[k] == TableRow(processed[k], CompareRow(processed[k], currentYear, prevYear, metric, isFrozen, today))
    {
      var row := processed[i];
      TotalsStep(processed, i, sortedYears, metric);
      totals := AccumulateRow(totals, row, sortedYears, currentYear, metric);

      var comparison := CompareOne(row, currentYear, prevYear, metric, isFrozen, today);
      ghost var before := rows;
      rows := rows + [TableRow(row, comparison)];
      assert forall k :: 0 <= k < i ==> rows[k] == before[k];
      i := i + 1;
    }
    assert processed[..|processed|] == processed;
  }

  lemma TotalsStep(rows: seq<ChartRow>, i: nat, sorted: seq<string>, metric: Metric)
    requires i < |rows|
    ensures Totals(rows[..i + 1], sorted, metric) ==
      AddYears(Totals(rows[..i], sorted, metric), rows[i], sorted, CurrentYear(sorted), metric)
  {
    assert rows[..i + 1][..i] == rows[..i];
  }

  method CalculateTableData(processed: seq<ChartRow>, years: seq<string>, metric: Metric, isFrozen: bool, today: Today)
    returns (table: Table)
    ensures table == TableData(processed, years, metric, isFrozen, today)
  {
    var sortedYears := SortInOrder(years, LexLe);
    var currentYear := if |sortedYears| > 0 then Some(sortedYears[|sortedYears| - 1]) else None;
    var prevYear := if |sortedYears| > 1 then Some(sortedYears[|sortedYears| - 2]) else None;
    var rows, totals := ProcessRows(processed, sortedYears, metric, isFrozen, today);
    assert Bases(rows) == processed;
    var footer := BuildFooter(totals, rows, sortedYears, metric);
    table := Table(rows, footer, sortedYears, currentYear, prevYear);
  }

  /** The sum of a column over the rows, missing values read as 0. */
  function ColumnSum(rows: seq<ChartRow>, key: string): real
  {
    if rows == [] then 0.0 else ColumnSum(rows[..|rows| - 1], key) + Get(rows[|rows| - 1].values, key)
  }

  /** The years are sorted ascending; the current year is the greatest and the previous year the
      one before it, when there are that many. */
  lemma TableYears(processed: seq<ChartRow>, years: seq<string>, metric: Metric, isFrozen: bool, today: Today)
    ensures var t := TableData(processed, years, metric, isFrozen, today);
      && multiset(t.sortedYears) == multiset(years)
      && (forall i, j :: 0 <= i < j < |years| ==> LexLe(t.sortedYears[i], t.sortedYears[j]))
      && (t.currentYear.Some? <==> |years| > 0)
      && (t.currentYear.Some? ==> t.currentYear.value in years && forall y :: y in years ==> LexLe(y, t.currentYear.value))
      && (t.prevYear.Some? <==> |years| > 1)
      && (t.prevYear.Some? ==> t.prevYear.value in years && LexLe(t.prevYear.value, t.currentYear.value))
  {
    var s := Sort(years, LexLe);
    TableParts(processed, years, metric, isFrozen, today);
    SortedYears(years);
  }

  /** The fields of the table that come from sorting the years alone. */
  lemma TableParts(processed: seq<ChartRow>, years: seq<string>, metric: Metric, isFrozen: bool, today: Today)
    ensures var t := TableData(processed, years, metric, isFrozen, today);
      var s := Sort(years, LexLe);
      && t.sortedYears == s && t.currentYear == CurrentYear(s) && t.prevYear == PrevYear(s)
      && t.footer == FooterOf(Totals(processed, s, metric), processed, s, metric)
  {
  }

  lemma SortedYears(years: seq<string>)
    ensures var s := Sort(years, LexLe);
      && multiset(s) == multiset(years)
      && (forall i, j :: 0 <= i < j < |years| ==> LexLe(s[i], s[j]))
      && (CurrentYear(s).Some? <==> |years| > 0)
      && (CurrentYear(s).Some? ==> CurrentYear(s).value in years && forall y :: y in years ==> LexLe(y, CurrentYear(s).value))
      && (PrevYear(s).Some? <==> |years| > 1)
      && (PrevYear(s).Some? ==> PrevYear(s).value in years && LexLe(PrevYear(s).value, CurrentYear(s).value))
  {
    var s := Sort(years, LexLe);
    SortStringsAscending(years);
    SameMembers(years, s);
    if |s| > 0 {
      LastIsGreatest(s);
    }
    if |s| > 1 {
      assert s[|s| - 2] in s;
    }
  }

  /** In an ascending list every element may stand before the last one. */
  lemma LastIsGreatest(s: seq<string>)
    requires |s| > 0 && forall i, j :: 0 <= i < j < |s| ==> LexLe(s[i], s[j])
    ensures forall y :: y in s ==> LexLe(y, s[|s| - 1])
  {
    forall y | y in s
      ensures LexLe(y, s[|s| - 1])
    {
      var k :| 0 <= k < |s| && s[k] == y;
      if k == |s| - 1 {
        LexTotal(y, y);
      }
    }
  }

  /** `g` added `c` times. */
  function Repeated(c: nat, g: real): real
  {
    if c == 0 then 0.0 else Repeated(c - 1, g) + g
  }

  lemma {:induction false} RepeatedIsProduct(c: nat, g: real)
    ensures Repeated(c, g) == (c as real) * g
  {
    if c > 0 {
      RepeatedIsProduct(c - 1, g);
      assert ((c - 1) as real) * g + g == (c as real) * g;
    }
  }

  lemma {:induction false} RepeatedAdds(c: nat, a: real, b: real)
    ensures Repeated(c, a) + Repeated(c, b) == Repeated(c, a + b)
  {
    if c > 0 {
      RepeatedAdds(c - 1, a, b);
    }
  }

  /** One row adds its value to a year key once per occurrence of the year in the list. */
  lemma {:induction false} AddYearsYear(t: map<string, real>, row: ChartRow, ys: seq<string>, cur: Option<string>,
                                        metric: Metric, k: string)
    requires forall i :: 0 <= i < |ys| ==> k != MetaKey(ys[i])
    ensures Get(AddYears(t, row, ys, cur, metric), k) == Get(t, k) + Repeated(multiset(ys)[k], Get(row.values, k))
  {
    if ys != [] {
      var p := ys[..|ys| - 1];
      var y := ys[|ys| - 1];
      MultisetSnoc(ys);
      AddYearsYear(t, row, p, cur, metric, k);
      var before := AddYears(t, row, p, cur, metric);
      assert AddYears(t, row, ys, cur, metric) == AddYear(before, row, y, cur, metric);
      AddYearKey(before, row, y, cur, metric, k);
      if y == k {
        assert Repeated(multiset(ys)[k], Get(row.values, k)) == Repeated(multiset(p)[k], Get(row.values, k)) + Get(row.values, k);
      }
    }
  }

  lemma MultisetSnoc(ys: seq<string>)
    requires |ys| > 0
    ensures multiset(ys) == multiset(ys[..|ys| - 1]) + multiset{ys[|ys| - 1]}
  {
    assert ys == ys[..|ys| - 1] + [ys[|ys| - 1]];
  }

  lemma AddYearKey(t: map<string, real>, row: ChartRow, y: string, cur: Option<string>, metric: Metric, k: string)
    requires k != MetaKey(y)
    ensures Get(AddYear(t, row, y, cur, metric), k) == Get(t, k) + (if y == k then Get(row.values, k) else 0.0)
  {
  }

  lemma AddYearTarget(t: map<string, real>, row: ChartRow, y: string, c: string)
    requires y != MetaKey(c)
    ensures Get(AddYear(t, row, y, Some(c), Kilos), MetaKey(c)) ==
      Get(t, MetaKey(c)) + (if y == c then Get(row.values, MetaKey(c)) else 0.0)
  {
    if y != c && MetaKey(y) == MetaKey(c) {
      MetaKeyInjective(y, c);
    }
  }

  /** For kilos, one row adds its target for the current year once per occurrence of that year. */
  lemma {:induction false} AddYearsTarget(t: map<string, real>, row: ChartRow, ys: seq<string>, c: string)
    requires forall i :: 0 <= i < |ys| ==> ys[i] != MetaKey(c)
    ensures Get(AddYears(t, row, ys, Some(c), Kilos), MetaKey(c)) ==
      Get(t, MetaKey(c)) + Repeated(multiset(ys)[c], Get(row.values, MetaKey(c)))
  {
    if ys != [] {
      var p := ys[..|ys| - 1];
      var y := ys[|ys| - 1];
      MultisetSnoc(ys);
      AddYearsTarget(t, row, p, c);
      var before := AddYears(t, row, p, Some(c), Kilos);
      assert AddYears(t, row, ys, Some(c), Kilos) == AddYear(before, row, y, Some(c), Kilos);
      AddYearTarget(before, row, y, c);
      if y == c {
        assert Repeated(multiset(ys)[c], Get(row.values, MetaKey(c))) ==
          Repeated(multiset(p)[c], Get(row.values, MetaKey(c))) + Get(row.values, MetaKey(c));
      }
    }
  }

  /** The footer accumulator of a year is its column sum, counted once per occurrence of the year
      in the requested list (`Repeated(1, x) == x` when the years are distinct); for kilos the
      current year's target accumulator is the sum of its target column likewise. */
  lemma {:induction false} TotalsAreColumnSums(rows: seq<ChartRow>, sorted: seq<string>, metric: Metric, y: string)
    requires NoMetaYear(sorted) && y in sorted
    ensures Get(Totals(rows, sorted, metric), y) == Repeated(multiset(sorted)[y], ColumnSum(rows, y))
    ensures metric == Kilos ==>
      var c := YearText(CurrentYear(sorted));
      Get(Totals(rows, sorted, metric), MetaKey(c)) == Repeated(multiset(sorted)[c], ColumnSum(rows, MetaKey(c)))
  {
    TotalsYearSum(rows, sorted, metric, y);
    if metric == Kilos {
      TotalsTargetSum(rows, sorted);
    }
  }

  lemma {:induction false} TotalsYearSum(rows: seq<ChartRow>, sorted: seq<string>, metric: Metric, y: string)
    requires NoMetaYear(sorted) && y in sorted
    ensures Get(Totals(rows, sorted, metric), y) == Repeated(multiset(sorted)[y], ColumnSum(rows, y))
  {
    if rows == [] {
      assert y != MetaKey(YearText(CurrentYear(sorted)));
      RepeatedAdds(multiset(sorted)[y], 0.0, 0.0);
    } else {
      var p := rows[..|rows| - 1];
      var r := rows[|rows| - 1];
      TotalsYearSum(p, sorted, metric, y);
      assert Totals(rows, sorted, metric) == AddYears(Totals(p, sorted, metric), r, sorted, CurrentYear(sorted), metric);
      assert forall i :: 0 <= i < |sorted| ==> sorted[i] in sorted;
      AddYearsYear(Totals(p, sorted, metric), r, sorted, CurrentYear(sorted), metric, y);
      RepeatedAdds(multiset(sorted)[y], ColumnSum(p, y), Get(r.values, y));
    }
  }

  lemma {:induction false} TotalsTargetSum(rows: seq<ChartRow>, sorted: seq<string>)
    requires NoMetaYear(sorted) && |sorted| > 0
    ensures var c := sorted[|sorted| - 1];
      Get(Totals(rows, sorted, Kilos), MetaKey(c)) == Repeated(multiset(sorted)[c], ColumnSum(rows, MetaKey(c)))
  {
    var c := sorted[|sorted| - 1];
    if rows == [] {
      RepeatedAdds(multiset(sorted)[c], 0.0, 0.0);
    } else {
      var p := rows[..|rows| - 1];
      var r := rows[|rows| - 1];
      TotalsTargetSum(p, sorted);
      assert Totals(rows, sorted, Kilos) == AddYears(Totals(p, sorted, Kilos), r, sorted, Some(c), Kilos);
      assert forall i :: 0 <= i < |sorted| ==> sorted[i] in sorted;
      AddYearsTarget(Totals(p, sorted, Kilos), r, sorted, c);
      RepeatedAdds(multiset(sorted)[c], ColumnSum(p, MetaKey(c)), Get(r.values, MetaKey(c)));
    }
  }

  /** The comparison is absent exactly when there is no (non-empty) previous year, hidden exactly
      for the months `HideDiff` names, and otherwise the difference and the percentages; the
      target fields appear exactly for kilos, and set the current value against the row's
      target for the current year. */
  lemma CompareRowMeaning(row: ChartRow, currentYear: Option<string>, prevYear: Option<string>, metric: Metric,
                          isFrozen: bool, today: Today)
    ensures var r := CompareRow(row, currentYear, prevYear, metric, isFrozen, today);
      && (r == NoComparison <==> !Truthy(prevYear))
      && (r == Hidden <==> Truthy(prevYear) && HideDiff(row, currentYear, today, isFrozen))
    ensures var r := CompareRow(row, currentYear, prevYear, metric, isFrozen, today);
      r.Shown? ==>
        && prevYear.Some?
        && var curr := Get(row.values, YearText(currentYear));
           var prev := Get(row.values, prevYear.value);
           && r.diff + prev == curr
           && (prev != 0.0 ==> r.growth * prev == r.diff * 100.0)
           && (prev == 0.0 ==> r.growth == 0.0)
           && (r.meta.Some? <==> metric == Kilos)
    ensures var r := CompareRow(row, currentYear, prevYear, metric, isFrozen, today);
      r.Shown? && r.meta.Some? ==>
        var curr := Get(row.values, YearText(currentYear));
        var target := Get(row.values, MetaKey(YearText(currentYear)));
        && r.meta.value.diffMeta + target == curr
        && (target != 0.0 ==> r.meta.value.varMeta * target == curr * 100.0)
        && (target == 0.0 ==> r.meta.value.varMeta == 0.0)
  {
    if Truthy(prevYear) && !HideDiff(row, currentYear, today, isFrozen) {
      var curr := Get(row.values, YearText(currentYear));
      var prev := Get(row.values, prevYear.value);
      PercentOfMeaning(curr - prev, prev);
      PercentOfMeaning(curr, Get(row.values, MetaKey(YearText(currentYear))));
    }
  }

  /** Freezing matters only for the current calendar month; and when the newest requested year
      is not the running year nothing is hidden. */
  lemma FreezeOnlyCurrentMonth(row: ChartRow, currentYear: Option<string>, prevYear: Option<string>, metric: Metric,
                               today: Today)
    ensures row.mesIndex != today.month ==>
      CompareRow(row, currentYear, prevYear, metric, true, today) == CompareRow(row, currentYear, prevYear, metric, false, today)
    ensures YearText(currentYear) != IntToString(today.year) ==>
      CompareRow(row, currentYear, prevYear, metric, true, today) != Hidden
  {
  }

  lemma NoMetaYearSorted(years: seq<string>)
    requires NoMetaYear(years)
    ensures NoMetaYear(Sort(years, LexLe))
  {
    var s := Sort(years, LexLe);
    forall a, b | a in s && b in s
      ensures a != MetaKey(b)
    {
      assert a in multiset(s) && b in multiset(s);
      assert a in multiset(years) && b in multiset(years);
      assert a in years && b in years;
    }
  }

  /** For the average price, the footer values of the current and the previous year are the
      means of their columns over the months with a positive value, or 0 when there are none;
      the footer difference is taken between these means. */
  lemma FooterAverage(processed: seq<ChartRow>, years: seq<string>, isFrozen: bool, today: Today)
    requires NoMetaYear(years)
    requires |years| > 1
    requires var s := Sort(years, LexLe);
      s[|s| - 2] != "" && s[|s| - 2] != s[|s| - 1]
      && multiset(years)[s[|s| - 1]] == 1 && multiset(years)[s[|s| - 2]] == 1
    ensures var s := Sort(years, LexLe);
      var c := s[|s| - 1];
      var f := TableData(processed, years, Promedio, isFrozen, today).footer;
      var n := CountPositive(processed, c);
      && (n > 0 ==> Get(f.values, c) == ColumnSum(processed, c) / (n as real))
      && (n == 0 ==> Get(f.values, c) == 0.0)
    ensures var s := Sort(years, LexLe);
      var p := s[|s| - 2];
      var f := TableData(processed, years, Promedio, isFrozen, today).footer;
      var n := CountPositive(processed, p);
      && (n > 0 ==> Get(f.values, p) == ColumnSum(processed, p) / (n as real))
      && (n == 0 ==> Get(f.values, p) == 0.0)
    ensures var s := Sort(years, LexLe);
      var f := TableData(processed, years, Promedio, isFrozen, today).footer;
      && f.comparison.Shown?
      && f.comparison.diff == Get(f.values, s[|s| - 1]) - Get(f.values, s[|s| - 2])
  {
    var s := Sort(years, LexLe);
    var c := s[|s| - 1];
    var totals := Totals(processed, s, Promedio);
    var n := CountPositive(processed, c);
    TableParts(processed, years, Promedio, isFrozen, today);
    CurrentYearTotal(processed, years, Promedio);
    PrevYearTotal(processed, years, Promedio);
    AverageFooterCurrent(totals, processed, s);
    var f := FooterOf(totals, processed, s, Promedio);
    assert TableData(processed, years, Promedio, isFrozen, today).footer == f;
  }

  /** When the newest year occurs once, its accumulator is its column sum. */
  lemma CurrentYearTotal(processed: seq<ChartRow>, years: seq<string>, metric: Metric)
    requires NoMetaYear(years) && |years| > 0
    requires var s := Sort(years, LexLe); multiset(years)[s[|s| - 1]] == 1
    ensures var s := Sort(years, LexLe);
      var c := s[|s| - 1];
      var totals := Totals(processed, s, metric);
      && Get(totals, c) == ColumnSum(processed, c)
      && (metric == Kilos ==> Get(totals, MetaKey(c)) == ColumnSum(processed, MetaKey(c)))
  {
    var s := Sort(years, LexLe);
    var c := s[|s| - 1];
    NoMetaYearSorted(years);
    assert c in s;
    TotalsAreColumnSums(processed, s, metric, c);
    assert multiset(s)[c] == 1;
  }

  /** When the year before the newest occurs once, its accumulator is its column sum. */
  lemma PrevYearTotal(processed: seq<ChartRow>, years: seq<string>, metric: Metric)
    requires NoMetaYear(years) && |years| > 1
    requires var s := Sort(years, LexLe); multiset(years)[s[|s| - 2]] == 1
    ensures var s := Sort(years, LexLe);
      Get(Totals(processed, s, metric), s[|s| - 2]) == ColumnSum(processed, s[|s| - 2])
  {
    var s := Sort(years, LexLe);
    var p := s[|s| - 2];
    NoMetaYearSorted(years);
    SortStringsAscending(years);
    assert p in s;
    TotalsYearSum(processed, s, metric, p);
    assert multiset(s)[p] == 1;
  }

  /** The average-price footer of the two newest years and the difference between them. */
  lemma AverageFooterCurrent(totals: map<string, real>, rows: seq<ChartRow>, s: seq<string>)
    requires |s| > 1 && s[|s| - 2] != "" && s[|s| - 2] != s[|s| - 1]
    ensures var c := s[|s| - 1];
      var f := FooterOf(totals, rows, s, Promedio);
      var n := CountPositive(rows, c);
      && (n > 0 ==> Get(f.values, c) == Get(totals, c) / (n as real))
      && (n == 0 ==> Get(f.values, c) == 0.0)
    ensures var p := s[|s| - 2];
      var f := FooterOf(totals, rows, s, Promedio);
      var n := CountPositive(rows, p);
      && (n > 0 ==> Get(f.values, p) == Get(totals, p) / (n as real))
      && (n == 0 ==> Get(f.values, p) == 0.0)
    ensures var c := s[|s| - 1];
      var f := FooterOf(totals, rows, s, Promedio);
      && f.comparison.Shown?
      && f.comparison.diff == Get(f.values, c) - Get(f.values, s[|s| - 2])
  {
  }

  /** For kilos the footer's target comparison sets the current year's total against its total
      target: their difference, and the total as a percentage of the target (`PercentOf`). */
  lemma FooterTarget(processed: seq<ChartRow>, years: seq<string>, isFrozen: bool, today: Today)
    requires NoMetaYear(years)
    requires |years| > 1
    requires var s := Sort(years, LexLe);
      s[|s| - 2] != "" && multiset(years)[s[|s| - 1]] == 1
    ensures var s := Sort(years, LexLe);
      var c := s[|s| - 1];
      var f := TableData(processed, years, Kilos, isFrozen, today).footer;
      var total := ColumnSum(processed, c);
      var target := ColumnSum(processed, MetaKey(c));
      && f.comparison.Shown? && f.comparison.meta.Some?
      && f.comparison.meta.value.diffMeta == total - target
      && f.comparison.meta.value.varMeta == PercentOf(total, target)
  {
    var s := Sort(years, LexLe);
    var c := s[|s| - 1];
    TableParts(processed, years, Kilos, isFrozen, today);
    CurrentYearTotal(processed, years, Kilos);
    TargetFooterCurrent(Totals(processed, s, Kilos), processed, s);
  }

  /** The kilo footer's target fields compare the newest year's total with its target total. */
  lemma TargetFooterCurrent(totals: map<string, real>, rows: seq<ChartRow>, s: seq<string>)
    requires |s| > 1 && s[|s| - 2] != ""
    ensures var c := s[|s| - 1];
      var f := FooterOf(totals, rows, s, Kilos);
      var total := Get(totals, c);
      var target := Get(totals, MetaKey(c));
      && f.comparison.Shown? && f.comparison.meta.Some?
      && f.comparison.meta.value.diffMeta == total - target
      && f.comparison.meta.value.varMeta == PercentOf(total, target)
  {
  }
}
