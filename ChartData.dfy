/** The chart composable of the PIC report: one row and one label per month of the selected
    range, the value of each requested year read from the first matching record, and one
    dataset per year (plus the kilo target line). */
module ChartData {
  import opened Prelude
  import PicUtils

  const Meses: seq<string> := ["Enero", "Febrero", "Marzo", "Abril", "Mayo", "Junio",
    "Julio", "Agosto", "Septiembre", "Octubre", "Noviembre", "Diciembre"]
  const ChartColors: seq<string> := ["#0ea5e9", "#6366f1", "#ec4899", "#f59e0b", "#10b981", "#8b5cf6", "#f43f5e"]
  const ChartColorsGreen: seq<string> := ["#10b981", "#059669", "#047857", "#34d399"]
  const TargetColor := "#a855f7"

  type Metric = PicUtils.Metric

  /** A server record: year as text, month number and the three measures, each of which the
      server may leave out. */
  datatype DataRecord = DataRecord(anio: string, mes: int, totalVentaPesos: Option<real>, totalVentaKg: Option<real>,
                                   totalMetasKg: Option<real>)

  /** A cell as the rows and the datasets hold it: a number, NaN, or `undefined`. */
  datatype Cell = Num(value: real) | NotANumber | Undefined

  /** A measure copied into a cell: `undefined` when the record leaves it out. */
  function Measure(m: Option<real>): Cell
  {
    if m.Some? then Num(m.value) else Undefined
  }

  /** A month row: the month number, its name (`None` for a month outside 1..12, whose name is
      `undefined`), and one cell per year key. */
  datatype MonthRow = MonthRow(mes: int, nombre: Option<string>, values: map<string, Cell>)

  datatype DatasetKind = Bar | Line

  datatype Dataset = Dataset(legend: string, data: seq<Cell>, color: string, kind: DatasetKind)

  datatype Chart = Chart(tableRows: seq<MonthRow>, labels: seq<Option<string>>, datasets: seq<Dataset>)

  /** `MESES[i - 1]`. */
  function MonthName(i: int): Option<string>
  {
    if 1 <= i <= 12 then Some(Meses[i - 1]) else None
  }

  function Palette(metric: Metric): (p: seq<string>)
    ensures |p| > 0
  {
    if metric == PicUtils.Promedio then ChartColorsGreen else ChartColors
  }

  /** `rawData.find(d => d.Año == year && d.Mes == month)`: the first matching record. */
  function Find(raw: seq<DataRecord>, year: string, month: int): (r: Option<DataRecord>)
    ensures r.Some? ==> r.value.anio == year && r.value.mes == month
    ensures r.Some? <==> exists k :: 0 <= k < |raw| && raw[k].anio == year && raw[k].mes == month
    ensures r.Some? ==> exists k :: 0 <= k < |raw| && raw[k] == r.value &&
                                    forall j :: 0 <= j < k ==> !(raw[j].anio == year && raw[j].mes == month)
  {
    if raw == [] then None
    else if raw[0].anio == year && raw[0].mes == month then Some(raw[0])
    else
      var r := Find(raw[1..], year, month);
      assert forall k :: 0 < k < |raw| ==> raw[k] == raw[1..][k - 1];
      r
  }

  /** The value of a cell: 0 without a record; the record's measure for pesos and kilos; for
      the average price, pesos per kilo when the kilos are present and not 0 (NaN when the
      pesos are missing then), 0 otherwise. */
  function CellValue(record: Option<DataRecord>, metric: Metric): Cell
  {
    if record.None? then Num(0.0)
    else match metric
      case Pesos => Measure(record.value.totalVentaPesos)
      case Kilos => Measure(record.value.totalVentaKg)
      case Promedio =>
        var kg := record.value.totalVentaKg;
        if kg.Some? && kg.value != 0.0 then
          (if record.value.totalVentaPesos.Some? then Num(PicUtils.PricePerKilo(record.value.totalVentaPesos.value, kg.value))
           else NotANumber)
        else Num(0.0)
  }

  function CellTarget(record: Option<DataRecord>, metric: Metric): Cell
  {
    if record.Some? && metric == PicUtils.Kilos then Measure(record.value.totalMetasKg) else Num(0.0)
  }

  /** A cell is a number unless a matching record lacks a measure the metric reads: then it is
      `undefined` for pesos and kilos, and NaN for the average price when only the pesos are
      missing; the average price is pesos per kilo whenever both are there and the kilos are
      not 0. */
  lemma CellMeaning(record: Option<DataRecord>, metric: Metric)
    ensures CellValue(record, metric) == Undefined <==>
      record.Some? && ((metric == PicUtils.Pesos && record.value.totalVentaPesos.None?)
                       || (metric == PicUtils.Kilos && record.value.totalVentaKg.None?))
    ensures CellValue(record, metric) == NotANumber <==>
      record.Some? && metric == PicUtils.Promedio && record.value.totalVentaPesos.None?
      && record.value.totalVentaKg.Some? && record.value.totalVentaKg.value != 0.0
    ensures (record.Some? && metric == PicUtils.Promedio && record.value.totalVentaPesos.Some?
             && record.value.totalVentaKg.Some? && record.value.totalVentaKg.value != 0.0) ==>
      CellValue(record, metric).Num?
      && CellValue(record, metric).value * record.value.totalVentaKg.value == record.value.totalVentaPesos.value
    ensures CellTarget(record, metric) == Undefined <==>
      record.Some? && metric == PicUtils.Kilos && record.value.totalMetasKg.None?
  {
    if record.Some? && metric == PicUtils.Promedio && record.value.totalVentaPesos.Some?
      && record.value.totalVentaKg.Some? && record.value.totalVentaKg.value != 0.0 {
      PicUtils.PricePerKiloMeaning(record.value.totalVentaPesos.value, record.value.totalVentaKg.value);
    }
  }

  /** The row values after the years of `ys`, in order. */
  function YearValues(raw: seq<DataRecord>, ys: seq<string>, metric: Metric, month: int): map<string, Cell>
  {
    if ys == [] then map[]
    else
      var v := YearValues(raw, ys[..|ys| - 1], metric, month);
      var y := ys[|ys| - 1];
      var record := Find(raw, y, month);
      var v := v[y := CellValue(record, metric)];
      if metric == PicUtils.Kilos then v[PicUtils.MetaKey(y) := CellTarget(record, metric)] else v
  }

  function Row(raw: seq<DataRecord>, years: seq<string>, metric: Metric, month: int): MonthRow
  {
    MonthRow(month, MonthName(month), YearValues(raw, years, metric, month))
  }

  /** The number of months from `start` to `end` inclusive. */
  function MonthCount(start: int, end: int): nat
  {
    if start <= end then end - start + 1 else 0
  }

  function Rows(raw: seq<DataRecord>, years: seq<string>, metric: Metric, start: int, end: int): (rows: seq<MonthRow>)
    ensures |rows| == MonthCount(start, end)
  {
    seq(MonthCount(start, end), k requires 0 <= k < MonthCount(start, end) => Row(raw, years, metric, start + k))
  }

  function Labels(start: int, end: int): (labels: seq<Option<string>>)
    ensures |labels| == MonthCount(start, end)
  {
    seq(MonthCount(start, end), k requires 0 <= k < MonthCount(start, end) => MonthName(start + k))
  }

  /** `r[key]` over the rows (`undefined` where the key is missing). */
  function Column(rows: seq<MonthRow>, key: string): (data: seq<Cell>)
    ensures |data| == |rows|
  {
    seq(|rows|, r requires 0 <= r < |rows| => if key in rows[r].values then rows[r].values[key] else Undefined)
  }

  function DatasetLabel(metric: Metric, year: string): string
  {
    match metric
    case Promedio => "Promedio " + year
    case Kilos => "Venta KG " + year
    case Pesos => "Venta $ " + year
  }

  /** `years[years.length - 1]` as text: "undefined" when there is no year. */
  function LastYearText(years: seq<string>): string
  {
    if |years| > 0 then years[|years| - 1] else "undefined"
  }

  function Datasets(rows: seq<MonthRow>, years: seq<string>, metric: Metric): seq<Dataset>
  {
    var colors := Palette(metric);
    var perYear := seq(|years|, idx requires 0 <= idx < |years| =>
      Dataset(DatasetLabel(metric, years[idx]), Column(rows, years[idx]), colors[idx % |colors|], Bar));
    if metric == PicUtils.Kilos then
      var last := LastYearText(years);
      perYear + [Dataset("Meta KG " + last, Column(rows, PicUtils.MetaKey(last)), TargetColor, Line)]
    else perYear
  }

  function ChartOf(raw: seq<DataRecord>, years: seq<string>, metric: Metric, start: int, end: int): Chart
  {
    var rows := Rows(raw, years, metric, start, end);
    Chart(rows, Labels(start, end), Datasets(rows, years, metric))
  }

  method FindRecord(raw: seq<DataRecord>, year: string, month: int) returns (record: Option<DataRecord>)
    ensures record == Find(raw, year, month)
  {
    var k := 0;
    while k < |raw|
      invariant 0 <= k <= |raw|
      invariant Find(raw, year, month) == Find(raw[k..], year, month)
    {
      if raw[k].anio == year && raw[k].mes == month {
        return Some(raw[k]);
      }
      assert raw[k..][1..] == raw[k + 1..];
      k := k + 1;
    }
    return None;
  }

  method BuildRow(raw: seq<DataRecord>, years: seq<string>, metric: Metric, month: int) returns (row: MonthRow)
    ensures row == Row(raw, years, metric, month)
  {
    var values := map[];
    var j := 0;
    while j < |years|
      invariant 0 <= j <= |years|
      invariant values == YearValues(raw, years[..j], metric, month)
    {
      var year := years[j];
      assert years[..j + 1][..j] == years[..j];
      var record := FindRecord(raw, year, month);
      var value := Num(0.0);
      var meta := Num(0.0);
      if record.Some? {
        match metric {
          case Pesos => value := Measure(record.value.totalVentaPesos);
          case Kilos =>
            value := Measure(record.value.totalVentaKg);
            meta := Measure(record.value.totalMetasKg);
          case Promedio =>
            var kg := record.value.totalVentaKg;
            if kg.Some? && kg.value != 0.0 {
              var pesos := record.value.totalVentaPesos;
              value := if pesos.Some? then Num(pesos.value / kg.value) else NotANumber;
            }
        }
      }
      values := values[year := value];
      if metric == PicUtils.Kilos {
        values := values[PicUtils.MetaKey(year) := meta];
      }
      j := j + 1;
    }
    assert years[..|years|] == years;
    row := MonthRow(month, MonthName(month), values);
  }

  method ProcessData(raw: seq<DataRecord>, years: seq<string>, metric: Metric, startMonth: int, endMonth: int)
    returns (chart: Chart)
    ensures chart == ChartOf(raw, years, metric, startMonth, endMonth)
  {
    var rows: seq<MonthRow> := [];
    var chartLabels: seq<Option<string>> := [];
    var i := startMonth;
    while i <= endMonth
      invariant startMonth <= i <= Max(startMonth, endMonth + 1)
      invariant |rows| == |chartLabels| == i - startMonth
      invariant forall k :: 0 <= k < |rows| ==> rows[k] == Row(raw, years, metric, startMonth + k)
      invariant forall k :: 0 <= k < |chartLabels| ==> chartLabels[k] == MonthName(startMonth + k)
      decreases endMonth - i
    {
      chartLabels := chartLabels + [MonthName(i)];
      var row := BuildRow(raw, years, metric, i);
      rows := rows + [row];
      i := i + 1;
    }
    assert |rows| == MonthCount(startMonth, endMonth);
    assert rows == Rows(raw, years, metric, startMonth, endMonth);
    assert chartLabels == Labels(startMonth, endMonth);

    var datasets := BuildDatasets(rows, years, metric);
    chart := Chart(rows, chartLabels, datasets);
  }

  /** One bar series per requested year, in the order of `years`, plus the target line for
      kilos. */
  method BuildDatasets(rows: seq<MonthRow>, years: seq<string>, metric: Metric) returns (datasets: seq<Dataset>)
    ensures datasets == Datasets(rows, years, metric)
  {
    datasets := [];
    var colors := if metric == PicUtils.Promedio then ChartColorsGreen else ChartColors;
    var idx := 0;
    while idx < |years|
      invariant 0 <= idx <= |years| && |datasets| == idx
      invariant forall d :: 0 <= d < idx ==>
        datasets[d] == Dataset(DatasetLabel(metric, years[d]), Column(rows, years[d]), colors[d % |colors|], Bar)
    {
      var legend := if metric == PicUtils.Promedio then "Promedio " + years[idx]
        else if metric == PicUtils.Kilos then "Venta KG " + years[idx] else "Venta $ " + years[idx];
      datasets := datasets + [Dataset(legend, Column(rows, years[idx]), colors[idx % |colors|], Bar)];
      idx := idx + 1;
    }
    if metric == PicUtils.Kilos {
      var lastYear := LastYearText(years);
      datasets := datasets + [Dataset("Meta KG " + lastYear, Column(rows, PicUtils.MetaKey(lastYear)), TargetColor, Line)];
    }
  }

  /** One row and one label per month from start to end, in order; nothing when start > end. */
  lemma RowsInOrder(raw: seq<DataRecord>, years: seq<string>, metric: Metric, start: int, end: int)
    ensures var c := ChartOf(raw, years, metric, start, end);
      && |c.tableRows| == |c.labels| == (if start <= end then end - start + 1 else 0)
      && (forall k :: 0 <= k < |c.tableRows| ==> c.tableRows[k].mes == start + k && c.labels[k] == c.tableRows[k].nombre)
      && (1 <= start && end <= 12 ==> forall k :: 0 <= k < |c.labels| ==> c.labels[k] == Some(Meses[start + k - 1]))
  {
    var c := ChartOf(raw, years, metric, start, end);
    forall k | 0 <= k < |c.tableRows|
      ensures c.tableRows[k].mes == start + k && c.labels[k] == c.tableRows[k].nombre
      ensures 1 <= start && end <= 12 ==> c.labels[k] == Some(Meses[start + k - 1])
    {
      assert c.tableRows[k] == Row(raw, years, metric, start + k);
      assert c.labels[k] == MonthName(start + k);
    }
  }

  /** Each year cell holds the value of the FIRST record for that month and year, 0 when there
      is none (`CellMeaning` says when it is a number); the target cells exist only for kilos and hold that record's target. */
  lemma {:induction false} RowCells(raw: seq<DataRecord>, ys: seq<string>, metric: Metric, month: int, y: string)
    requires PicUtils.NoMetaYear(ys)
    ensures y in ys ==>
      && y in YearValues(raw, ys, metric, month)
      && YearValues(raw, ys, metric, month)[y] == CellValue(Find(raw, y, month), metric)
    ensures y in ys && metric == PicUtils.Kilos ==>
      && PicUtils.MetaKey(y) in YearValues(raw, ys, metric, month)
      && YearValues(raw, ys, metric, month)[PicUtils.MetaKey(y)] == CellTarget(Find(raw, y, month), metric)
    ensures metric != PicUtils.Kilos ==> YearValues(raw, ys, metric, month).Keys == set z | z in ys
  {
    if ys != [] {
      var p := ys[..|ys| - 1];
      var last := ys[|ys| - 1];
      assert ys == p + [last];
      assert PicUtils.NoMetaYear(p) by {
        assert forall z :: z in p ==> z in ys;
      }
      RowCells(raw, p, metric, month, y);
      if y in ys && metric == PicUtils.Kilos {
        assert last in ys;
        assert last != PicUtils.MetaKey(y) && y != PicUtils.MetaKey(last);
        if last != y && PicUtils.MetaKey(last) == PicUtils.MetaKey(y) {
          PicUtils.MetaKeyInjective(last, y);
        }
      }
      if y in ys && metric != PicUtils.Kilos {
        assert y in p || y == last;
      }
    }
  }

  /** One bar dataset per requested year, in order, coloured by its position modulo the palette
      and carrying that year's column; for kilos exactly one more dataset, the target line of
      the last year in the list. */
  lemma DatasetsShape(rows: seq<MonthRow>, years: seq<string>, metric: Metric)
    ensures var ds := Datasets(rows, years, metric);
      && |ds| == |years| + (if metric == PicUtils.Kilos then 1 else 0)
      && (forall i :: 0 <= i < |years| ==>
            ds[i].kind == Bar && ds[i].data == Column(rows, years[i])
            && ds[i].color == Palette(metric)[i % |Palette(metric)|])
      && (metric == PicUtils.Kilos ==>
            ds[|years|].kind == Line && ds[|years|].data == Column(rows, PicUtils.MetaKey(LastYearText(years))))
      && (forall i :: 0 <= i < |ds| ==> |ds[i].data| == |rows|)
  {
  }
}
