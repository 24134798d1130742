/** The customer-segmentation store: the last segmentation analysed with its group type and
    filters, the getters the screens read from it, the segment in focus, the page of clients
    of a segment and the comparison between two periods. */
module SegmentationStore {
  import opened Prelude

  datatype GroupType = Quartiles | Quintiles | Deciles | Percentiles
  datatype ChartType = Boxplot | Normal | Histogram | Stacked | Master | Pareto
  datatype PeriodType = Monthly | Annual
  datatype Metric = VentaKg | VentaPesos

  datatype Period = Period(kind: PeriodType, years: seq<string>, monthStart: int, monthEnd: int)

  /** The filters of an analysis; the organisational and product lists are optional. */
  datatype Filters = Filters(
    canal: Option<seq<string>>,
    gerencia: Option<seq<string>>,
    jefatura: Option<seq<string>>,
    ruta: Option<seq<string>>,
    marca: Option<seq<string>>,
    grupo: Option<seq<string>>,
    categoria: Option<seq<string>>,
    period: Period,
    metric: Metric)

  /** The filters without their period, as the comparison request sends them. */
  datatype FiltersWithoutPeriod = FiltersWithoutPeriod(
    canal: Option<seq<string>>,
    gerencia: Option<seq<string>>,
    jefatura: Option<seq<string>>,
    ruta: Option<seq<string>>,
    marca: Option<seq<string>>,
    grupo: Option<seq<string>>,
    categoria: Option<seq<string>>,
    metric: Metric)

  /** A segment as far as the store reads it. */
  datatype Segment = Segment(id: string, legend: string, clientCount: int, volume: real, clientIds: seq<string>)

  /** The analysis the server returns, as far as the store reads it. */
  datatype Response = Response(segments: seq<Segment>, groupType: GroupType, totalClients: int, totalVolume: real)

  /** The two periods a comparison contrasts. */
  datatype PeriodRange = PeriodRange(years: seq<string>, monthStart: int, monthEnd: int)

  /** What the export request carries of each segment. */
  datatype ExportSegment = ExportSegment(id: string, legend: string, clientIds: seq<string>)

  /** The filter record a new store starts with and `resetFilters` restores: empty lists, the
      whole year, kilograms. */
  const DefaultFilters := Filters(Some([]), Some([]), Some([]), Some([]), Some([]), Some([]), Some([]),
    Period(Annual, [], 1, 12), VentaKg)

  const AnalyzeError := "Error al analizar segmentación"
  const ClientsError := "Error al obtener clientes"
  const CompareError := "Error al comparar períodos"

  /** The server's error text when it sent one, the default text otherwise. */
  function ErrorText(serverError: Option<string>, default: string): (r: string)
    ensures Truthy(serverError) ==> r == serverError.value
    ensures !Truthy(serverError) ==> r == default
  {
    if Truthy(serverError) then serverError.value else default
  }

  // ---------------------------------------------------------------------------------------
  // Getters
  // ---------------------------------------------------------------------------------------

  function TotalClients(data: Option<Response>): int
  {
    if data.Some? then data.value.totalClients else 0
  }

  function TotalVolume(data: Option<Response>): real
  {
    if data.Some? then data.value.totalVolume else 0.0
  }

  function Segments(data: Option<Response>): seq<Segment>
  {
    if data.Some? then data.value.segments else []
  }

  /** Without an analysis the totals are zero and there are no segments; with one they are
      the analysis's own. */
  lemma GettersMeaning(data: Option<Response>)
    ensures data.None? ==> TotalClients(data) == 0 && TotalVolume(data) == 0.0 && Segments(data) == []
    ensures data.Some? ==>
      TotalClients(data) == data.value.totalClients && TotalVolume(data) == data.value.totalVolume
      && Segments(data) == data.value.segments
  {
  }

  /** `find` by id: the first segment with the id, or -1. */
  function FindSegment(segments: seq<Segment>, id: string): (k: int)
    ensures -1 <= k < |segments|
    ensures k >= 0 ==> segments[k].id == id && forall i :: 0 <= i < k ==> segments[i].id != id
    ensures k < 0 ==> forall i :: 0 <= i < |segments| ==> segments[i].id != id
  {
    FirstIndex(segments, (s: Segment) => s.id == id)
  }

  /** `activeSegment`: nothing without an active id (an empty id counts as none) or without
      an analysis; otherwise the first segment with that id, if any. */
  function ActiveSegment(data: Option<Response>, activeSegmentId: Option<string>): Option<Segment>
  {
    if !Truthy(activeSegmentId) || data.None? then None
    else
      var k := FindSegment(data.value.segments, activeSegmentId.value);
      if k >= 0 then Some(data.value.segments[k]) else None
  }

  lemma ActiveSegmentMeaning(data: Option<Response>, activeSegmentId: Option<string>)
    ensures ActiveSegment(data, activeSegmentId).Some? <==>
      Truthy(activeSegmentId) && data.Some?
      && exists i :: 0 <= i < |data.value.segments| && data.value.segments[i].id == activeSegmentId.value
    ensures ActiveSegment(data, activeSegmentId).Some? ==>
      var s := ActiveSegment(data, activeSegmentId).value;
      s.id == activeSegmentId.value
      && exists k :: 0 <= k < |data.value.segments| && data.value.segments[k] == s
           && forall i :: 0 <= i < k ==> data.value.segments[i].id != s.id
  {
  }

  function MetricLabel(metric: Metric): string
  {
    if metric == VentaKg then "Volumen (KG)" else "Ventas ($$)"
  }

  function MetricUnit(metric: Metric): string
  {
    if metric == VentaKg then "KG" else "$$"
  }

  /** The unit is `KG` exactly for the kilogram metric, and the label names the same unit. */
  lemma MetricUnitMeaning(metric: Metric)
    ensures MetricUnit(metric) == "KG" <==> metric == VentaKg
    ensures MetricUnit(metric) == "$$" <==> metric == VentaPesos
    ensures var caption := MetricLabel(metric); var unit := MetricUnit(metric);
      |caption| > |unit| + 1 && caption[|caption| - |unit| - 1..] == unit + ")"
  {
  }

  function WithoutPeriod(f: Filters): (r: FiltersWithoutPeriod)
    ensures r.canal == f.canal && r.gerencia == f.gerencia && r.jefatura == f.jefatura && r.ruta == f.ruta
    ensures r.marca == f.marca && r.grupo == f.grupo && r.categoria == f.categoria && r.metric == f.metric
  {
    FiltersWithoutPeriod(f.canal, f.gerencia, f.jefatura, f.ruta, f.marca, f.grupo, f.categoria, f.metric)
  }

  /** Two filter records that differ only in their period ask the same comparison. */
  lemma WithoutPeriodIgnoresPeriod(f: Filters, p: Period)
    ensures WithoutPeriod(f.(period := p)) == WithoutPeriod(f)
  {
  }

  function ExportPayload(segments: seq<Segment>): (r: seq<ExportSegment>)
    ensures |r| == |segments|
    ensures forall i :: 0 <= i < |segments| ==>
      r[i] == ExportSegment(segments[i].id, segments[i].legend, segments[i].clientIds)
  {
    seq(|segments|, i requires 0 <= i < |segments| => ExportSegment(segments[i].id, segments[i].legend, segments[i].clientIds))
  }

  // ---------------------------------------------------------------------------------------
  // The store
  // ---------------------------------------------------------------------------------------

  /** The store; `ClientsPage` and `Comparison` are the server's answers for a page of clients
      and for a comparison, which the store keeps without reading them. Failed requests are
      `Err` with the server's error text when it sent one. */
  class Store<ClientsPage, Comparison> {
    var data: Option<Response>
    var isLoading: bool
    var error: Option<string>
    var currentGroupType: GroupType
    var currentFilters: Filters
    var selectedChartType: ChartType
    var activeSegmentId: Option<string>
    var segmentClientsData: Option<ClientsPage>
    var isLoadingClients: bool
    var clientsError: Option<string>
    var comparisonData: Option<Comparison>
    var isLoadingComparison: bool
    var comparisonError: Option<string>

    constructor()
      ensures data == None && !isLoading && error == None
      ensures currentGroupType == Quintiles && currentFilters == DefaultFilters
      ensures selectedChartType == Master && activeSegmentId == None
      ensures segmentClientsData == None && !isLoadingClients && clientsError == None
      ensures comparisonData == None && !isLoadingComparison && comparisonError == None
    {
      data := None;
      isLoading := false;
      error := None;
      currentGroupType := Quintiles;
      currentFilters := DefaultFilters;
      selectedChartType := Master;
      activeSegmentId := None;
      segmentClientsData := None;
      isLoadingClients := false;
      clientsError := None;
      comparisonData := None;
      isLoadingComparison := false;
      comparisonError := None;
    }

    /** `response` is the server's analysis for `groupType` and `filters`. Success keeps the
        analysis with its group type and filters and drops the segment in focus; failure
        drops the analysis and records the error, keeping the previous group type and
        filters. */
    method Analyze(groupType: GroupType, filters: Filters, response: Result<Response, Option<string>>)
      modifies this
      ensures response.Ok? ==>
        data == Some(response.value) && currentGroupType == groupType && currentFilters == filters
        && activeSegmentId == None && error == None
      ensures response.Err? ==>
        data == None && error == Some(ErrorText(response.error, AnalyzeError))
        && currentGroupType == old(currentGroupType) && currentFilters == old(currentFilters)
        && activeSegmentId == old(activeSegmentId)
      ensures !isLoading && ActiveSegment(data, activeSegmentId) == None
      ensures segmentClientsData == old(segmentClientsData) && comparisonData == old(comparisonData)
      ensures clientsError == old(clientsError) && comparisonError == old(comparisonError)
      ensures selectedChartType == old(selectedChartType)
      ensures isLoadingClients == old(isLoadingClients) && isLoadingComparison == old(isLoadingComparison)
    {
      isLoading := true;
      error := None;
      match response {
        case Ok(r) =>
          data := Some(r);
          currentGroupType := groupType;
          currentFilters := filters;
          activeSegmentId := None;
        case Err(e) =>
          error := Some(ErrorText(e, AnalyzeError));
          data := None;
      }
      isLoading := false;
    }

    /** Asks for a page of a segment's clients under the current filters; on success the
        segment comes into focus. */
    method FetchSegmentClients(segment: Segment, page: int, pageSize: int,
                               api: (string, seq<string>, Filters, int, int) -> Result<ClientsPage, Option<string>>)
      modifies this
      ensures var response := api(segment.id, segment.clientIds, old(currentFilters), page, pageSize);
        && (response.Ok? ==>
              segmentClientsData == Some(response.value) && activeSegmentId == Some(segment.id) && clientsError == None)
        && (response.Err? ==>
              segmentClientsData == None && activeSegmentId == old(activeSegmentId)
              && clientsError == Some(ErrorText(response.error, ClientsError)))
      ensures !isLoadingClients
      ensures data == old(data) && error == old(error) && currentFilters == old(currentFilters)
      ensures comparisonData == old(comparisonData) && isLoading == old(isLoading)
      ensures currentGroupType == old(currentGroupType) && selectedChartType == old(selectedChartType)
      ensures isLoadingComparison == old(isLoadingComparison) && comparisonError == old(comparisonError)
    {
      isLoadingClients := true;
      clientsError := None;
      var response := api(segment.id, segment.clientIds, currentFilters, page, pageSize);
      match response {
        case Ok(r) =>
          segmentClientsData := Some(r);
          activeSegmentId := Some(segment.id);
        case Err(e) =>
          clientsError := Some(ErrorText(e, ClientsError));
          segmentClientsData := None;
      }
      isLoadingClients := false;
    }

    /** Exports the clients of the given segments under the current filters; the answer, or
        the failure, is passed on unchanged. */
    method ExportClients<R>(segments: seq<Segment>, api: (seq<ExportSegment>, Filters) -> R) returns (r: R)
      ensures r == api(ExportPayload(segments), currentFilters)
    {
      var segmentsData := ExportPayload(segments);
      r := api(segmentsData, currentFilters);
    }

    /** Compares two periods under the current filters without their period. */
    method CompareSegmentation(groupType: GroupType, period1: PeriodRange, period2: PeriodRange,
                               api: (GroupType, PeriodRange, PeriodRange, FiltersWithoutPeriod) -> Result<Comparison, Option<string>>)
      modifies this
      ensures var response := api(groupType, period1, period2, WithoutPeriod(old(currentFilters)));
        && (response.Ok? ==> comparisonData == Some(response.value) && comparisonError == None)
        && (response.Err? ==> comparisonData == None && comparisonError == Some(ErrorText(response.error, CompareError)))
      ensures !isLoadingComparison
      ensures data == old(data) && currentFilters == old(currentFilters) && activeSegmentId == old(activeSegmentId)
      ensures segmentClientsData == old(segmentClientsData) && isLoading == old(isLoading)
      ensures error == old(error) && currentGroupType == old(currentGroupType)
      ensures selectedChartType == old(selectedChartType)
      ensures isLoadingClients == old(isLoadingClients) && clientsError == old(clientsError)
    {
      isLoadingComparison := true;
      comparisonError := None;
      var filtersWithoutPeriod := WithoutPeriod(currentFilters);
      var response := api(groupType, period1, period2, filtersWithoutPeriod);
      match response {
        case Ok(r) =>
          comparisonData := Some(r);
        case Err(e) =>
          comparisonError := Some(ErrorText(e, CompareError));
          comparisonData := None;
      }
      isLoadingComparison := false;
    }

    method SetChartType(chartType: ChartType)
      modifies this
      ensures selectedChartType == chartType
      ensures data == old(data) && activeSegmentId == old(activeSegmentId) && currentFilters == old(currentFilters)
      ensures isLoading == old(isLoading) && error == old(error) && currentGroupType == old(currentGroupType)
      ensures segmentClientsData == old(segmentClientsData) && isLoadingClients == old(isLoadingClients)
      ensures clientsError == old(clientsError)
      ensures comparisonData == old(comparisonData) && isLoadingComparison == old(isLoadingComparison)
      ensures comparisonError == old(comparisonError)
    {
      selectedChartType := chartType;
    }

    method SetActiveSegment(segmentId: Option<string>)
      modifies this
      ensures activeSegmentId == segmentId
      ensures data == old(data) && currentFilters == old(currentFilters) && selectedChartType == old(selectedChartType)
      ensures segmentClientsData == old(segmentClientsData) && comparisonData == old(comparisonData)
      ensures isLoading == old(isLoading) && error == old(error) && currentGroupType == old(currentGroupType)
      ensures isLoadingClients == old(isLoadingClients) && clientsError == old(clientsError)
      ensures isLoadingComparison == old(isLoadingComparison) && comparisonError == old(comparisonError)
    {
      activeSegmentId := segmentId;
    }

    /** Drops every answer, every error and the segment in focus; the configuration stays. */
    method ClearData()
      modifies this
      ensures data == None && segmentClientsData == None && comparisonData == None
      ensures error == None && clientsError == None && comparisonError == None
      ensures activeSegmentId == None
      ensures currentGroupType == old(currentGroupType) && currentFilters == old(currentFilters)
      ensures selectedChartType == old(selectedChartType)
      ensures isLoading == old(isLoading) && isLoadingClients == old(isLoadingClients)
      ensures isLoadingComparison == old(isLoadingComparison)
      ensures TotalClients(data) == 0 && Segments(data) == [] && ActiveSegment(data, activeSegmentId) == None
    {
      data := None;
      segmentClientsData := None;
      comparisonData := None;
      error := None;
      clientsError := None;
      comparisonError := None;
      activeSegmentId := None;
    }

    method ResetFilters()
      modifies this
      ensures currentFilters == DefaultFilters
      ensures data == old(data) && activeSegmentId == old(activeSegmentId)
      ensures currentGroupType == old(currentGroupType) && selectedChartType == old(selectedChartType)
      ensures isLoading == old(isLoading) && error == old(error)
      ensures segmentClientsData == old(segmentClientsData) && isLoadingClients == old(isLoadingClients)
      ensures clientsError == old(clientsError)
      ensures comparisonData == old(comparisonData) && isLoadingComparison == old(isLoadingComparison)
      ensures comparisonError == old(comparisonError)
      ensures MetricUnit(currentFilters.metric) == "KG"
    {
      currentFilters := DefaultFilters;
    }
  }
}
