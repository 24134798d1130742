/** The filter store of the PIC report: the options offered by the selects, the user's
    selections, the cascade that clears dependent selections, the selected clients (an
    insertion-ordered map from id to name), and the filter maps sent to the server. Server calls
    are function parameters; `None` stands for a failed request. */
module PicFilterStore {
  import opened Prelude
  import opened Sorting
  import PicUtils

  datatype FilterOptions = FilterOptions(
    canales: seq<string>,
    gerencias: seq<string>,
    marcas: seq<string>,
    anios: seq<string>,
    transacciones: seq<string>,
    formatosCliente: seq<string>)

  datatype DependentOptions = DependentOptions(
    jefaturas: seq<string>,
    rutas: seq<string>,
    grupos: seq<string>,
    categorias: seq<string>,
    skus: seq<string>)

  /** The selections, field by field as the select boxes bind them. */
  datatype Selection = Selection(
    canal: seq<string>,
    Gerencia: seq<string>,
    Jefatura: seq<string>,
    Ruta: seq<string>,
    Marca: seq<string>,
    grupo: seq<string>,
    Categorias: seq<string>,
    SKU: seq<string>,
    Anio: seq<string>,
    Transaccion: seq<string>,
    FormatoCliente: seq<string>,
    MesInicial: string,
    MesFinal: string)

  const DefaultTransactions: seq<string> := ["Venta", "Metas", "NC"]

  const EmptyOptions := FilterOptions([], [], [], [], [], [])
  const EmptyDependents := DependentOptions([], [], [], [], [])
  const InitialSelection := Selection([], [], [], [], [], [], [], [], [], DefaultTransactions, [], "1", "12")

  /** A value of a filter map: a list of selected values or a single text. */
  datatype FilterValue = List(items: seq<string>) | Text(text: string)

  type Filters = map<string, FilterValue>

  /** `getDependentOptions(endpoint, parentFilters)`. */
  type OptionsApi = (string, map<string, seq<string>>) -> Option<seq<string>>

  /** `getDashboardData(filters)`. */
  type ReportApi = Filters -> Option<seq<PicUtils.PicRecord>>

  datatype ClientEntry = ClientEntry(id: string, name: string)

  // ---------------------------------------------------------------------------------------
  // Default years
  // ---------------------------------------------------------------------------------------

  /** The three most recent years (all of them when there are fewer), ascending. */
  function DefaultYears(anios: seq<string>): seq<string>
  {
    if |anios| > 0 then LastN(Sort(anios, LexLe), 3) else []
  }

  lemma DefaultYearsMostRecent(anios: seq<string>)
    ensures var r := DefaultYears(anios);
      && |r| == Min(3, |anios|)
      && (forall i :: 0 <= i < |r| ==> r[i] in anios)
      && (forall i, j :: 0 <= i < j < |r| ==> LexLe(r[i], r[j]))
      && (|r| > 0 ==> forall y :: y in anios ==> y in r || LexLe(y, r[0]))
  {
    SortStringsAscending(anios);
    if |anios| > 0 {
      var s := Sort(anios, LexLe);
      assert forall x :: x in s <==> x in anios by {
        forall x
          ensures x in s <==> x in anios
        {
          assert x in s <==> x in multiset(s);
          assert x in anios <==> x in multiset(anios);
        }
      }
      LastNOfSorted(s, 3);
    }
  }

  /** The last `n` elements of an ascending sequence are its own, ascending, and no smaller
      than anything before them. */
  lemma LastNOfSorted(s: seq<string>, n: nat)
    requires forall i, j :: 0 <= i < j < |s| ==> LexLe(s[i], s[j])
    ensures var r := LastN(s, n);
      && (forall i :: 0 <= i < |r| ==> r[i] in s)
      && (forall i, j :: 0 <= i < j < |r| ==> LexLe(r[i], r[j]))
      && (|r| > 0 ==> forall y :: y in s ==> y in r || LexLe(y, r[0]))
  {
    var r := LastN(s, n);
    var d := |s| - |r|;
    assert r == s[d..];
    forall i | 0 <= i < |r|
      ensures r[i] in s
    {
      assert r[i] == s[d + i];
    }
    if |r| > 0 {
      forall y | y in s
        ensures y in r || LexLe(y, r[0])
      {
        var k :| 0 <= k < |s| && s[k] == y;
        if k >= d {
          assert r[k - d] == y;
        } else {
          assert r[0] == s[d];
        }
      }
    }
  }

  // ---------------------------------------------------------------------------------------
  // Selected clients
  // ---------------------------------------------------------------------------------------

  function Ids(entries: seq<ClientEntry>): (ids: seq<string>)
    ensures |ids| == |entries| && forall i :: 0 <= i < |entries| ==> ids[i] == entries[i].id
  {
    seq(|entries|, i requires 0 <= i < |entries| => entries[i].id)
  }

  /** A map holds each key once. */
  predicate UniqueIds(entries: seq<ClientEntry>)
  {
    forall i, j :: 0 <= i < j < |entries| ==> entries[i].id != entries[j].id
  }

  /** `map.get(id)`. */
  function Lookup(entries: seq<ClientEntry>, id: string): Option<string>
  {
    if entries == [] then None
    else if entries[|entries| - 1].id == id then Some(entries[|entries| - 1].name)
    else Lookup(entries[..|entries| - 1], id)
  }

  /** `map.delete(id)`: the other entries keep their order. */
  function Remove(entries: seq<ClientEntry>, id: string): (r: seq<ClientEntry>)
    ensures |r| <= |entries|
    ensures forall e :: e in r <==> e in entries && e.id != id
  {
    if entries == [] then []
    else
      var p := Remove(entries[..|entries| - 1], id);
      var last := entries[|entries| - 1];
      assert forall e :: e in entries <==> e in entries[..|entries| - 1] || e == last;
      if last.id == id then p else p + [last]
  }

  /** `toggleClientSelection`: removes the id when present, otherwise adds it at the end. */
  function Toggle(entries: seq<ClientEntry>, id: string, name: string): (r: seq<ClientEntry>)
    ensures id in Ids(r) <==> id !in Ids(entries)
  {
    if id in Ids(entries) then Remove(entries, id)
    else
      var r := entries + [ClientEntry(id, name)];
      assert Ids(r)[|entries|] == id;
      r
  }

  lemma {:induction false} LookupMeaning(entries: seq<ClientEntry>, id: string)
    requires UniqueIds(entries)
    ensures Lookup(entries, id).None? <==> id !in Ids(entries)
    ensures forall e :: e in entries && e.id == id ==> Lookup(entries, id) == Some(e.name)
  {
    if entries != [] {
      var p := entries[..|entries| - 1];
      LookupMeaning(p, id);
      assert forall e :: e in entries <==> e in p || e == entries[|entries| - 1];
      assert forall x :: x in Ids(entries) <==> x in Ids(p) || x == entries[|entries| - 1].id;
    }
  }

  lemma {:induction false} RemoveUnique(entries: seq<ClientEntry>, id: string)
    requires UniqueIds(entries)
    ensures UniqueIds(Remove(entries, id))
  {
    if entries != [] {
      var p := entries[..|entries| - 1];
      RemoveUnique(p, id);
      var last := entries[|entries| - 1];
      if last.id != id {
        forall e | e in Remove(p, id)
          ensures e.id != last.id
        {
          assert e in p;
        }
        var r := Remove(p, id);
        forall i, j | 0 <= i < j < |r + [last]|
          ensures (r + [last])[i].id != (r + [last])[j].id
        {
          if j == |r| {
            assert (r + [last])[i] in r;
          }
        }
      }
    }
  }

  /** Toggling keeps the keys unique, flips the presence of `id` (storing `name` when it adds
      it), and leaves every other entry as it was. */
  lemma ToggleMeaning(entries: seq<ClientEntry>, id: string, name: string)
    requires UniqueIds(entries)
    ensures UniqueIds(Toggle(entries, id, name))
    ensures Lookup(Toggle(entries, id, name), id) == if id in Ids(entries) then None else Some(name)
    ensures forall other :: other != id ==> Lookup(Toggle(entries, id, name), other) == Lookup(entries, other)
  {
    var t := Toggle(entries, id, name);
    if id in Ids(entries) {
      RemoveUnique(entries, id);
      LookupMeaning(t, id);
      forall other | other != id
        ensures Lookup(t, other) == Lookup(entries, other)
      {
        LookupMeaning(t, other);
        LookupMeaning(entries, other);
        if other in Ids(entries) {
          var k :| 0 <= k < |entries| && entries[k].id == other;
          assert entries[k] in t;
        }
      }
    } else {
      assert t[..|entries|] == entries;
      forall i | 0 <= i < |entries|
        ensures entries[i].id != id
      {
        assert Ids(entries)[i] == entries[i].id;
      }
    }
  }

  /** Toggling an absent id twice gives the selection back unchanged. */
  lemma ToggleTwiceAbsent(entries: seq<ClientEntry>, id: string, name: string)
    requires id !in Ids(entries)
    ensures Toggle(Toggle(entries, id, name), id, name) == entries
  {
    var t := entries + [ClientEntry(id, name)];
    assert Ids(t)[|entries|] == id;
    assert t[..|entries|] == entries;
    RemoveAbsent(entries, id);
  }

  lemma {:induction false} RemoveAbsent(entries: seq<ClientEntry>, id: string)
    requires id !in Ids(entries)
    ensures Remove(entries, id) == entries
  {
    if entries != [] {
      var p := entries[..|entries| - 1];
      assert Ids(entries)[|entries| - 1] == entries[|entries| - 1].id;
      assert id !in Ids(p) by {
        forall i | 0 <= i < |p|
          ensures Ids(p)[i] != id
        {
          assert Ids(p)[i] == Ids(entries)[i];
        }
      }
      RemoveAbsent(p, id);
      assert entries == p + [entries[|entries| - 1]];
    }
  }

  /** Toggling a present id twice keeps every other entry and leaves `id` mapped to the name
      passed in, now at the end of the insertion order. */
  lemma ToggleTwicePresent(entries: seq<ClientEntry>, id: string, name: string)
    requires UniqueIds(entries) && id in Ids(entries)
    ensures Toggle(Toggle(entries, id, name), id, name) == Remove(entries, id) + [ClientEntry(id, name)]
  {
  }

  // ---------------------------------------------------------------------------------------
  // Filter maps
  // ---------------------------------------------------------------------------------------

  /** The keys of the selection object, in declaration order. */
  const SelectionKeys: seq<string> := ["canal", "Gerencia", "Jefatura", "Ruta", "Marca", "grupo",
    "Categorias", "SKU", "Anio", "Transaccion", "FormatoCliente", "MesInicial", "MesFinal"]

  /** `selected[key]` when it is an array; `None` for the two month texts and unknown keys. */
  function ArrayField(sel: Selection, key: string): Option<seq<string>>
  {
    match key
    case "canal" => Some(sel.canal)
    case "Gerencia" => Some(sel.Gerencia)
    case "Jefatura" => Some(sel.Jefatura)
    case "Ruta" => Some(sel.Ruta)
    case "Marca" => Some(sel.Marca)
    case "grupo" => Some(sel.grupo)
    case "Categorias" => Some(sel.Categorias)
    case "SKU" => Some(sel.SKU)
    case "Anio" => Some(sel.Anio)
    case "Transaccion" => Some(sel.Transaccion)
    case "FormatoCliente" => Some(sel.FormatoCliente)
    case _ => None
  }

  /** The server column of a report filter: `mappings[key] || key`. */
  function ReportColumn(key: string): string
  {
    match key
    case "Transaccion" => "TRANSACCION"
    case "FormatoCliente" => "formatocte"
    case "grupo" => "grupo"
    case "Categorias" => "Categorias"
    case "SKU" => "SKU_NOMBRE"
    case _ => key
  }

  /** Adds `column(key) -> selection` for every key of `keys` whose selection is a non-empty
      array, skipping the month texts. */
  function ArrayFilters(sel: Selection, keys: seq<string>, column: string -> string): Filters
  {
    if keys == [] then map[]
    else
      var m := ArrayFilters(sel, keys[..|keys| - 1], column);
      var key := keys[|keys| - 1];
      var val := ArrayField(sel, key);
      if val.Some? && |val.value| > 0 && key != "MesInicial" && key != "MesFinal" then m[column(key) := List(val.value)]
      else m
  }

  /** The filters `generateReport` sends. */
  function ReportFilters(sel: Selection, clients: seq<ClientEntry>): Filters
  {
    var m := ArrayFilters(sel, SelectionKeys, ReportColumn);
    var m := m["MesInicial" := Text(sel.MesInicial)]["MesFinal" := Text(sel.MesFinal)];
    if |clients| > 0 then m["IDCLIENTE" := List(Ids(clients))] else m
  }

  const ClientSearchKeys: seq<string> := ["canal", "Gerencia", "Jefatura", "Ruta", "FormatoCliente"]

  /** The server column of a client-search filter: `backendKeys[key] || key`. */
  function ClientSearchColumn(key: string): string
  {
    if key == "FormatoCliente" then "formatocte" else key
  }

  /** The filters `getFiltersForClientSearch` returns. */
  function ClientSearchFilters(sel: Selection): Filters
  {
    ArrayFilters(sel, ClientSearchKeys, ClientSearchColumn)
  }

  /** Each key of `keys` whose selection is a non-empty array appears under its column with that
      selection, when no two keys share a column; no other column appears. */
  lemma {:induction false} ArrayFiltersMeaning(sel: Selection, keys: seq<string>, column: string -> string, key: string)
    requires forall a, b :: a in keys && b in keys && a != b ==> column(a) != column(b)
    requires key in keys && key != "MesInicial" && key != "MesFinal"
    ensures column(key) in ArrayFilters(sel, keys, column) <==> ArrayField(sel, key).Some? && |ArrayField(sel, key).value| > 0
    ensures column(key) in ArrayFilters(sel, keys, column) ==> ArrayFilters(sel, keys, column)[column(key)] == List(ArrayField(sel, key).value)
  {
    var p := keys[..|keys| - 1];
    var last := keys[|keys| - 1];
    assert keys == p + [last];
    if key != last {
      assert key in p;
      ArrayFiltersMeaning(sel, p, column, key);
    } else if column(key) in ArrayFilters(sel, p, column) {
      ArrayFiltersKeys(sel, p, column);
      var k :| k in p && column(k) == column(key);
      assert k != key ==> false;
      assert k == key;
      if key in p {
        ArrayFiltersMeaning(sel, p, column, key);
      }
    }
  }

  lemma {:induction false} ArrayFiltersKeys(sel: Selection, keys: seq<string>, column: string -> string)
    ensures forall c :: c in ArrayFilters(sel, keys, column) ==> exists k :: k in keys && column(k) == c
  {
    if keys != [] {
      var p := keys[..|keys| - 1];
      ArrayFiltersKeys(sel, p, column);
      assert forall k :: k in p ==> k in keys;
    }
  }

  /** The report filters hold every non-empty array selection under its server column, the two
      month texts always, and the selected client ids, in selection order, exactly when a client
      is selected. */
  lemma ReportFiltersMeaning(sel: Selection, clients: seq<ClientEntry>, key: string)
    requires key in SelectionKeys && key != "MesInicial" && key != "MesFinal"
    ensures var f := ReportFilters(sel, clients);
      && (ReportColumn(key) in f <==> |ArrayField(sel, key).value| > 0)
      && (ReportColumn(key) in f ==> f[ReportColumn(key)] == List(ArrayField(sel, key).value))
      && f["MesInicial"] == Text(sel.MesInicial) && f["MesFinal"] == Text(sel.MesFinal)
      && ("IDCLIENTE" in f <==> |clients| > 0)
      && (|clients| > 0 ==> f["IDCLIENTE"] == List(Ids(clients)))
  {
    ReportColumnsDistinct();
    var m := ArrayFilters(sel, SelectionKeys, ReportColumn);
    var c := ReportColumn(key);
    assert SelectionKeys[11] == "MesInicial" && SelectionKeys[12] == "MesFinal";
    assert c != "MesInicial" && c != "MesFinal" && c != "IDCLIENTE";
    ArrayFiltersMeaning(sel, SelectionKeys, ReportColumn, key);
    ArrayFiltersKeys(sel, SelectionKeys, ReportColumn);
    assert "IDCLIENTE" !in m;
    FinishFilters(m, sel, clients, c);
  }

  /** The month texts and the client ids go on top of the array filters without touching any
      other column. */
  lemma FinishFilters(m: Filters, sel: Selection, clients: seq<ClientEntry>, c: string)
    requires c != "MesInicial" && c != "MesFinal" && c != "IDCLIENTE" && "IDCLIENTE" !in m
    ensures var m := m["MesInicial" := Text(sel.MesInicial)]["MesFinal" := Text(sel.MesFinal)];
      var f := if |clients| > 0 then m["IDCLIENTE" := List(Ids(clients))] else m;
      && (c in f <==> c in m) && (c in m ==> f[c] == m[c])
      && f["MesInicial"] == Text(sel.MesInicial) && f["MesFinal"] == Text(sel.MesFinal)
      && ("IDCLIENTE" in f <==> |clients| > 0)
      && (|clients| > 0 ==> f["IDCLIENTE"] == List(Ids(clients)))
  {
  }

  /** No two selection keys share a server column, and none is sent as `IDCLIENTE`. */
  lemma ReportColumnsDistinct()
    ensures forall a, b :: a in SelectionKeys && b in SelectionKeys && a != b ==> ReportColumn(a) != ReportColumn(b)
    ensures forall a :: a in SelectionKeys ==> ReportColumn(a) != "IDCLIENTE"
  {
    assert "TRANSACCION" !in SelectionKeys && "formatocte" !in SelectionKeys && "SKU_NOMBRE" !in SelectionKeys;
    assert "IDCLIENTE" !in SelectionKeys;
    forall a, b | a in SelectionKeys && b in SelectionKeys && a != b
      ensures ReportColumn(a) != ReportColumn(b)
    {
      if ReportColumn(a) == ReportColumn(b) {
        ReportColumnRenames(a, b);
      }
    }
  }

  /** Two keys share a column only when one of them is itself a renamed column's name. */
  lemma ReportColumnRenames(a: string, b: string)
    requires a != b && ReportColumn(a) == ReportColumn(b)
    ensures a in ["TRANSACCION", "formatocte", "SKU_NOMBRE"] || b in ["TRANSACCION", "formatocte", "SKU_NOMBRE"]
  {
  }

  /** The client-search filters use only channel, management, supervision, route and client
      format (renamed `formatocte`), each present exactly when its selection is non-empty. */
  lemma ClientSearchFiltersMeaning(sel: Selection, key: string)
    requires key in ClientSearchKeys
    ensures var f := ClientSearchFilters(sel);
      && (ClientSearchColumn(key) in f <==> |ArrayField(sel, key).value| > 0)
      && (ClientSearchColumn(key) in f ==> f[ClientSearchColumn(key)] == List(ArrayField(sel, key).value))
    ensures forall c :: c in ClientSearchFilters(sel) ==> c in ["canal", "Gerencia", "Jefatura", "Ruta", "formatocte"]
  {
    ArrayFiltersMeaning(sel, ClientSearchKeys, ClientSearchColumn, key);
    ArrayFiltersKeys(sel, ClientSearchKeys, ClientSearchColumn);
  }

  // ---------------------------------------------------------------------------------------
  // The store
  // ---------------------------------------------------------------------------------------

  class Store {
    var options: FilterOptions
    var depOptions: DependentOptions
    var selected: Selection
    var isLoading: bool
    var reportData: seq<PicUtils.PicRecord>
    var isGenerating: bool
    var isComparisonFrozen: bool
    var selectedClients: seq<ClientEntry>

    /** The selected clients form a `Map`: each id is selected once. */
    ghost predicate Valid()
      reads this
    {
      UniqueIds(selectedClients)
    }

    constructor()
      ensures Valid()
      ensures options == EmptyOptions && depOptions == EmptyDependents && selected == InitialSelection
      ensures !isLoading && reportData == [] && !isGenerating && isComparisonFrozen && selectedClients == []
    {
      options := EmptyOptions;
      depOptions := EmptyDependents;
      selected := InitialSelection;
      isLoading := false;
      reportData := [];
      isGenerating := false;
      isComparisonFrozen := true;
      selectedClients := [];
    }

    /** `response` is the initial option lists, or `None` when loading them failed. */
    method InitFilters(response: Option<FilterOptions>)
      modifies this
      ensures response.Some? ==> options == response.value
      ensures response.Some? && |response.value.anios| > 0 ==> selected == old(selected).(Anio := DefaultYears(response.value.anios))
      ensures response.None? || |response.value.anios| == 0 ==> selected == old(selected)
      ensures response.None? ==> options == old(options)
      ensures !isLoading
      ensures depOptions == old(depOptions) && selectedClients == old(selectedClients)
      ensures reportData == old(reportData) && isComparisonFrozen == old(isComparisonFrozen) && isGenerating == old(isGenerating)
    {
      isLoading := true;
      if response.Some? {
        options := response.value;
        if |options.anios| > 0 {
          var sortedYears := SortInOrder(options.anios, LexLe);
          selected := selected.(Anio := LastN(sortedYears, 3));
        }
      }
      isLoading := false;
    }

    /** Clears supervision and route, then loads the supervisions of the selected managements. */
    method HandleGerenciaChange(api: OptionsApi)
      modifies this
      ensures selected == old(selected).(Jefatura := [], Ruta := [])
      ensures depOptions.rutas == [] && depOptions.grupos == old(depOptions.grupos)
      ensures depOptions.categorias == old(depOptions.categorias) && depOptions.skus == old(depOptions.skus)
      ensures depOptions.jefaturas ==
        if |selected.Gerencia| > 0 && api("jefaturas", map["Gerencia" := selected.Gerencia]).Some?
        then api("jefaturas", map["Gerencia" := selected.Gerencia]).value else []
      ensures options == old(options) && selectedClients == old(selectedClients) && reportData == old(reportData)
      ensures isLoading == old(isLoading) && isGenerating == old(isGenerating) && isComparisonFrozen == old(isComparisonFrozen)
    {
      selected := selected.(Jefatura := [], Ruta := []);
      depOptions := depOptions.(jefaturas := [], rutas := []);
      if |selected.Gerencia| > 0 {
        var data := api("jefaturas", map["Gerencia" := selected.Gerencia]);
        if data.Some? {
          depOptions := depOptions.(jefaturas := data.value);
        }
      }
    }

    /** Clears the route, then loads the routes of the selected supervisions. */
    method HandleJefaturaChange(api: OptionsApi)
      modifies this
      ensures selected == old(selected).(Ruta := [])
      ensures depOptions == old(depOptions).(rutas :=
        if |selected.Jefatura| > 0 && api("rutas", map["Jefatura" := selected.Jefatura]).Some?
        then api("rutas", map["Jefatura" := selected.Jefatura]).value else [])
      ensures options == old(options) && selectedClients == old(selectedClients) && reportData == old(reportData)
      ensures isLoading == old(isLoading) && isGenerating == old(isGenerating) && isComparisonFrozen == old(isComparisonFrozen)
    {
      selected := selected.(Ruta := []);
      depOptions := depOptions.(rutas := []);
      if |selected.Jefatura| > 0 {
        var data := api("rutas", map["Jefatura" := selected.Jefatura]);
        if data.Some? {
          depOptions := depOptions.(rutas := data.value);
        }
      }
    }

    /** Clears group, category and SKU, then loads the groups and SKUs of the selected brands;
        both lists are taken only when both requests succeed. */
    method HandleMarcaChange(api: OptionsApi)
      modifies this
      ensures selected == old(selected).(grupo := [], Categorias := [], SKU := [])
      ensures depOptions.jefaturas == old(depOptions.jefaturas) && depOptions.rutas == old(depOptions.rutas)
      ensures depOptions.categorias == []
      ensures var q := map["Marca" := selected.Marca];
        if |selected.Marca| > 0 && api("grupos", q).Some? && api("skus", q).Some?
        then depOptions.grupos == api("grupos", q).value && depOptions.skus == api("skus", q).value
        else depOptions.grupos == [] && depOptions.skus == []
      ensures options == old(options) && selectedClients == old(selectedClients) && reportData == old(reportData)
      ensures isLoading == old(isLoading) && isGenerating == old(isGenerating) && isComparisonFrozen == old(isComparisonFrozen)
    {
      selected := selected.(grupo := [], Categorias := [], SKU := []);
      depOptions := depOptions.(grupos := [], categorias := [], skus := []);
      if |selected.Marca| > 0 {
        var grupos := api("grupos", map["Marca" := selected.Marca]);
        var skus := api("skus", map["Marca" := selected.Marca]);
        if grupos.Some? && skus.Some? {
          depOptions := depOptions.(grupos := grupos.value, skus := skus.value);
        }
      }
    }

    /** Clears category and SKU, then loads the categories and SKUs of brand and group, or, with
        no group selected, the SKUs of the brand alone. */
    method HandleGrupoChange(api: OptionsApi)
      modifies this
      ensures selected == old(selected).(Categorias := [], SKU := [])
      ensures depOptions.jefaturas == old(depOptions.jefaturas) && depOptions.rutas == old(depOptions.rutas)
      ensures depOptions.grupos == old(depOptions.grupos)
      ensures var q := map["Marca" := selected.Marca, "grupo" := selected.grupo];
        |selected.grupo| > 0 ==>
          if api("categorias", q).Some? && api("skus", q).Some?
          then depOptions.categorias == api("categorias", q).value && depOptions.skus == api("skus", q).value
          else depOptions.categorias == [] && depOptions.skus == old(depOptions.skus)
      ensures var q := map["Marca" := selected.Marca];
        |selected.grupo| == 0 ==>
          && depOptions.categorias == []
          && depOptions.skus == if |selected.Marca| > 0 && api("skus", q).Some? then api("skus", q).value else old(depOptions.skus)
      ensures options == old(options) && selectedClients == old(selectedClients) && reportData == old(reportData)
      ensures isLoading == old(isLoading) && isGenerating == old(isGenerating) && isComparisonFrozen == old(isComparisonFrozen)
    {
      selected := selected.(Categorias := [], SKU := []);
      depOptions := depOptions.(categorias := []);
      if |selected.grupo| > 0 {
        var q := map["Marca" := selected.Marca, "grupo" := selected.grupo];
        var categorias := api("categorias", q);
        var skus := api("skus", q);
        if categorias.Some? && skus.Some? {
          depOptions := depOptions.(categorias := categorias.value, skus := skus.value);
        }
      } else if |selected.Marca| > 0 {
        var skus := api("skus", map["Marca" := selected.Marca]);
        if skus.Some? {
          depOptions := depOptions.(skus := skus.value);
        }
      }
    }

    /** Builds the report filters, asks the server, and stores the records; reports whether the
        request succeeded (a failure keeps the previous records). */
    method GenerateReport(api: ReportApi) returns (ok: bool)
      modifies this
      ensures ok <==> api(ReportFilters(selected, selectedClients)).Some?
      ensures reportData == if ok then api(ReportFilters(selected, selectedClients)).value else old(reportData)
      ensures !isGenerating
      ensures selected == old(selected) && selectedClients == old(selectedClients)
      ensures options == old(options) && depOptions == old(depOptions)
      ensures isLoading == old(isLoading) && isComparisonFrozen == old(isComparisonFrozen)
    {
      isGenerating := true;
      var apiFilters: Filters := map[];
      var i := 0;
      while i < |SelectionKeys|
        invariant 0 <= i <= |SelectionKeys|
        invariant apiFilters == ArrayFilters(selected, SelectionKeys[..i], ReportColumn)
      {
        var key := SelectionKeys[i];
        assert SelectionKeys[..i + 1][..i] == SelectionKeys[..i];
        var val := ArrayField(selected, key);
        if val.Some? && |val.value| > 0 {
          var dbKey := ReportColumn(key);
          if key != "MesInicial" && key != "MesFinal" {
            apiFilters := apiFilters[dbKey := List(val.value)];
          }
        }
        i := i + 1;
      }
      assert SelectionKeys[..|SelectionKeys|] == SelectionKeys;
      apiFilters := apiFilters["MesInicial" := Text(selected.MesInicial)];
      apiFilters := apiFilters["MesFinal" := Text(selected.MesFinal)];
      if |selectedClients| > 0 {
        apiFilters := apiFilters["IDCLIENTE" := List(Ids(selectedClients))];
      }
      var data := api(apiFilters);
      if data.Some? {
        reportData := data.value;
        ok := true;
      } else {
        ok := false;
      }
      isGenerating := false;
    }

    method ToggleComparisonLock()
      modifies this
      ensures isComparisonFrozen == !old(isComparisonFrozen)
      ensures options == old(options) && depOptions == old(depOptions) && selected == old(selected)
      ensures selectedClients == old(selectedClients) && reportData == old(reportData)
      ensures isLoading == old(isLoading) && isGenerating == old(isGenerating)
    {
      isComparisonFrozen := !isComparisonFrozen;
    }

    method ToggleClientSelection(id: string, name: string)
      requires Valid()
      modifies this
      ensures Valid()
      ensures selectedClients == Toggle(old(selectedClients), id, name)
      ensures options == old(options) && depOptions == old(depOptions) && selected == old(selected)
      ensures reportData == old(reportData) && isComparisonFrozen == old(isComparisonFrozen)
      ensures isLoading == old(isLoading) && isGenerating == old(isGenerating)
    {
      if id in Ids(selectedClients) {
        selectedClients := Remove(selectedClients, id);
      } else {
        selectedClients := selectedClients + [ClientEntry(id, name)];
      }
      ToggleMeaning(old(selectedClients), id, name);
    }

    method ClearSelectedClients()
      modifies this
      ensures Valid() && selectedClients == []
      ensures options == old(options) && depOptions == old(depOptions) && selected == old(selected)
      ensures reportData == old(reportData) && isComparisonFrozen == old(isComparisonFrozen)
      ensures isLoading == old(isLoading) && isGenerating == old(isGenerating)
    {
      selectedClients := [];
    }

    method GetFiltersForClientSearch() returns (apiFilters: Filters)
      ensures apiFilters == ClientSearchFilters(selected)
    {
      apiFilters := map[];
      var i := 0;
      while i < |ClientSearchKeys|
        invariant 0 <= i <= |ClientSearchKeys|
        invariant apiFilters == ArrayFilters(selected, ClientSearchKeys[..i], ClientSearchColumn)
      {
        var key := ClientSearchKeys[i];
        assert ClientSearchKeys[..i + 1][..i] == ClientSearchKeys[..i];
        var val := ArrayField(selected, key);
        if val.Some? && |val.value| > 0 {
          apiFilters := apiFilters[ClientSearchColumn(key) := List(val.value)];
        }
        i := i + 1;
      }
      assert ClientSearchKeys[..|ClientSearchKeys|] == ClientSearchKeys;
    }

    /** Every selection empty except the defaults (transactions, months 1..12, the three most
        recent years), no selected client, every dependent list empty. */
    method ResetFilters()
      modifies this
      ensures selected == InitialSelection.(Anio := DefaultYears(options.anios))
      ensures Valid() && selectedClients == [] && depOptions == EmptyDependents
      ensures options == old(options) && reportData == old(reportData) && isComparisonFrozen == old(isComparisonFrozen)
      ensures isLoading == old(isLoading) && isGenerating == old(isGenerating)
    {
      selected := selected.(canal := [], Gerencia := [], Jefatura := [], Ruta := [], Marca := [],
        grupo := [], Categorias := [], SKU := [], FormatoCliente := []);
      selected := selected.(Transaccion := DefaultTransactions, MesInicial := "1", MesFinal := "12");
      if |options.anios| > 0 {
        var sortedYears := SortInOrder(options.anios, LexLe);
        selected := selected.(Anio := LastN(sortedYears, 3));
      } else {
        selected := selected.(Anio := []);
      }
      selectedClients := [];
      depOptions := depOptions.(jefaturas := [], rutas := [], grupos := [], categorias := [], skus := []);
    }
  }
}
