/** The client-validation store: a reviewer walks the list of pending clients, compares each
    with its geographic neighbours and either homologates it with a neighbour (copying the
    neighbour's channel, format and sales hierarchy), marks it as a new client, or skips it.
    The selected client is the same object as the entry of the pending list, so the merge
    rules change that entry in place. */
module ValidationStore {
  import opened Prelude

  /** A pending client as a value: the fields the validation rules read or write. */
  datatype ClientData = ClientData(
    clienteid: string,
    nombre: string,
    geopos: string,
    ruta: Option<string>,
    tipoCli: string,
    canal: Option<string>,
    canalm: Option<string>,
    formato: Option<string>,
    formatocte: Option<string>,
    gerencia: Option<string>,
    zona: Option<string>,
    jefatura: Option<string>,
    umaf: Option<string>)

  /** A pending client as the store holds it: an object whose classification fields the merge
      rules overwrite. The fields no rule writes are constants. */
  class Client {
    const clienteid: string
    const nombre: string
    const geopos: string
    const ruta: Option<string>
    var tipoCli: string
    var canal: Option<string>
    var canalm: Option<string>
    var formato: Option<string>
    var formatocte: Option<string>
    var gerencia: Option<string>
    var zona: Option<string>
    var jefatura: Option<string>
    var umaf: Option<string>

    function Data(): ClientData
      reads this
    {
      ClientData(clienteid, nombre, geopos, ruta, tipoCli, canal, canalm, formato, formatocte,
        gerencia, zona, jefatura, umaf)
    }

    constructor(d: ClientData)
      ensures Data() == d
    {
      clienteid, nombre, geopos, ruta := d.clienteid, d.nombre, d.geopos, d.ruta;
      tipoCli, canal, canalm, formato, formatocte := d.tipoCli, d.canal, d.canalm, d.formato, d.formatocte;
      gerencia, zona, jefatura, umaf := d.gerencia, d.zona, d.jefatura, d.umaf;
    }
  }

  // ---------------------------------------------------------------------------------------
  // Homologation with a neighbour
  // ---------------------------------------------------------------------------------------

  /** `applyMatchLogic` on values: the master takes the candidate's channel and format (each
      falling back on its alias), the candidate's Gerencia, Zona and Jefatura as they are, and
      the candidate's UMAF and client type only when those are not empty. */
  function MatchMerge(master: ClientData, candidate: ClientData): ClientData
  {
    master.(
      canal := Or(candidate.canal, candidate.canalm),
      canalm := Or(candidate.canalm, candidate.canal),
      formato := Or(candidate.formato, candidate.formatocte),
      formatocte := Or(candidate.formatocte, candidate.formato),
      gerencia := candidate.gerencia,
      zona := candidate.zona,
      jefatura := candidate.jefatura,
      umaf := if Truthy(candidate.umaf) then candidate.umaf else master.umaf,
      tipoCli := if candidate.tipoCli != "" then candidate.tipoCli else master.tipoCli)
  }

  /** What the merge keeps and what it takes: the identity, address and route of the master
      stay; the hierarchy is the candidate's; the channel and format pairs come from the
      candidate alone, so the master's own values never survive; UMAF and client type come
      from the candidate when it has them and stay otherwise. */
  lemma MatchMergeMeaning(master: ClientData, candidate: ClientData)
    ensures var r := MatchMerge(master, candidate);
      && r.clienteid == master.clienteid && r.nombre == master.nombre
      && r.geopos == master.geopos && r.ruta == master.ruta
      && r.gerencia == candidate.gerencia && r.zona == candidate.zona && r.jefatura == candidate.jefatura
      && r.canal in {candidate.canal, candidate.canalm} && r.canalm in {candidate.canal, candidate.canalm}
      && r.formato in {candidate.formato, candidate.formatocte} && r.formatocte in {candidate.formato, candidate.formatocte}
      && (Truthy(candidate.canal) || Truthy(candidate.canalm) <==> Truthy(r.canal) && Truthy(r.canalm))
      && (Truthy(candidate.formato) || Truthy(candidate.formatocte) <==> Truthy(r.formato) && Truthy(r.formatocte))
      && (Truthy(candidate.umaf) ==> r.umaf == candidate.umaf)
      && (!Truthy(candidate.umaf) ==> r.umaf == master.umaf)
      && r.tipoCli == (if candidate.tipoCli != "" then candidate.tipoCli else master.tipoCli)
  {
  }

  /** Homologating twice with the same neighbour changes nothing more. */
  lemma MatchMergeIdempotent(master: ClientData, candidate: ClientData)
    ensures MatchMerge(MatchMerge(master, candidate), candidate) == MatchMerge(master, candidate)
  {
  }

  /** Two masters homologated with the same neighbour differ at most in identity, address,
      route, and the UMAF and client type the neighbour does not supply. */
  lemma MatchMergeForgetsMaster(a: ClientData, b: ClientData, candidate: ClientData)
    requires a.clienteid == b.clienteid && a.nombre == b.nombre && a.geopos == b.geopos && a.ruta == b.ruta
    requires Truthy(candidate.umaf) && candidate.tipoCli != ""
    ensures MatchMerge(a, candidate) == MatchMerge(b, candidate)
  {
  }

  // ---------------------------------------------------------------------------------------
  // Looking for neighbours
  // ---------------------------------------------------------------------------------------

  /** `parseFloat`, a JavaScript built-in: NaN when the text does not start with a number. */
  type ParseFloat = string -> Number

  /** The answer of the neighbour search: `None` when the request failed. */
  datatype NearbyResult = NearbyResult(success: bool, data: seq<ClientData>)

  /** `getNearbyClients(lat, lng, radius, excludeId)`. */
  type NearbyApi = (Number, Number, int, string) -> Option<NearbyResult>

  /** The search radius the store asks for. */
  const SearchRadius := 200

  /** `s.split(sep)`. */
  function Split(s: string, sep: char): (parts: seq<string>)
    ensures |parts| >= 1
    ensures forall i :: 0 <= i < |parts| ==> sep !in parts[i]
  {
    if s == [] then [""]
    else if s[0] == sep then [""] + Split(s[1..], sep)
    else
      var rest := Split(s[1..], sep);
      [[s[0]] + rest[0]] + rest[1..]
  }

  /** Splitting and joining back with the separator gives the text again, and there are at
      least two parts exactly when the separator occurs. */
  lemma {:induction false} SplitJoin(s: string, sep: char)
    ensures Join([sep], Split(s, sep)) == s
    ensures sep in s <==> |Split(s, sep)| >= 2
  {
    if s != [] {
      var rest := Split(s[1..], sep);
      SplitJoin(s[1..], sep);
      assert s == [s[0]] + s[1..];
      if s[0] != sep {
        var head := [s[0]] + rest[0];
        assert Split(s, sep) == [head] + rest[1..];
        if |rest| >= 2 {
          assert Join([sep], rest) == rest[0] + [sep] + Join([sep], rest[1..]);
          assert ([head] + rest[1..])[1..] == rest[1..];
        }
        assert sep in s <==> sep in s[1..];
      }
    }
  }

  /** The point `selectClientForReview` searches around: the text before the first comma and
      the text between the first and the second comma, when the position has a comma and
      neither part parses to NaN. */
  function SearchPoint(geopos: string, parseFloat: ParseFloat): Option<(Number, Number)>
  {
    if geopos != "" && ',' in geopos then
      var parts := Split(geopos, ',');
      var lat := parseFloat(parts[0]);
      var lng := parseFloat(if |parts| > 1 then parts[1] else "");
      if !lat.NaN? && !lng.NaN? then Some((lat, lng)) else None
    else None
  }

  /** The neighbours the review shows: `None` when there was no search, or it failed. */
  function Neighbours(client: ClientData, parseFloat: ParseFloat, api: NearbyApi): Option<seq<ClientData>>
  {
    match SearchPoint(client.geopos, parseFloat)
    case None => None
    case Some(point) =>
      var response := api(point.0, point.1, SearchRadius, client.clienteid);
      if response.Some? && response.value.success then Some(response.value.data) else None
  }

  /** A position without a comma, or whose coordinates do not parse, never reaches the
      server; a searchable one is searched around its first two comma-separated parts, with
      the client itself excluded. */
  lemma SearchGuard(client: ClientData, parseFloat: ParseFloat, api: NearbyApi)
    ensures ',' !in client.geopos ==> Neighbours(client, parseFloat, api).None?
    ensures var parts := Split(client.geopos, ',');
      SearchPoint(client.geopos, parseFloat).Some? <==>
        |parts| >= 2 && !parseFloat(parts[0]).NaN? && !parseFloat(parts[1]).NaN?
    ensures SearchPoint(client.geopos, parseFloat).Some? ==>
      var p := SearchPoint(client.geopos, parseFloat).value;
      var response := api(p.0, p.1, SearchRadius, client.clienteid);
      Neighbours(client, parseFloat, api) == if response.Some? && response.value.success then Some(response.value.data) else None
  {
    SplitJoin(client.geopos, ',');
  }

  // ---------------------------------------------------------------------------------------
  // Moving to the next client
  // ---------------------------------------------------------------------------------------

  function Ids(clients: seq<Client>): (ids: seq<string>)
    ensures |ids| == |clients|
    ensures forall i :: 0 <= i < |clients| ==> ids[i] == clients[i].clienteid
  {
    seq(|clients|, i requires 0 <= i < |clients| => clients[i].clienteid)
  }

  /** `findIndex` by id: the first position of `id`, or -1. */
  function IndexOf(ids: seq<string>, id: string): (k: int)
    ensures -1 <= k < |ids|
    ensures k >= 0 ==> ids[k] == id && id !in ids[..k]
    ensures k < 0 ==> id !in ids
  {
    FirstIndex(ids, (x: string) => x == id)
  }

  /** The position `selectNextClient` moves to: the one after the current client, when the
      current client is in the list and not its last entry. */
  function NextIndex(ids: seq<string>, id: string): Option<nat>
  {
    var k := IndexOf(ids, id);
    if k != -1 && k < |ids| - 1 then Some(k + 1) else None
  }

  lemma NextIndexMeaning(ids: seq<string>, id: string)
    ensures NextIndex(ids, id).Some? <==> exists k :: 0 <= k < |ids| - 1 && ids[k] == id
    ensures NextIndex(ids, id).Some? ==>
      var n := NextIndex(ids, id).value;
      0 < n < |ids| && ids[n - 1] == id && id !in ids[..n - 1]
  {
  }

  // ---------------------------------------------------------------------------------------
  // The store
  // ---------------------------------------------------------------------------------------

  datatype PendingResult = PendingResult(success: bool, page: int, total: int, data: seq<Client>)

  /** The three outcomes of `saveClient`: accepted, answered without success, or failed (the
      store rethrows the error). */
  datatype SaveOutcome = Saved | NotSaved | SaveFailed

  type SaveApi = (string, ClientData) -> SaveOutcome

  class Store {
    var pendingClients: seq<Client>
    var selectedClient: Client?
    var nearbyCandidates: seq<ClientData>
    var candidateToCompare: Option<ClientData>
    var isLoading: bool
    var totalPending: int
    var currentPage: int

    constructor()
      ensures pendingClients == [] && selectedClient == null && nearbyCandidates == []
      ensures candidateToCompare == None && !isLoading && totalPending == 0 && currentPage == 1
    {
      pendingClients := [];
      selectedClient := null;
      nearbyCandidates := [];
      candidateToCompare := None;
      isLoading := false;
      totalPending := 0;
      currentPage := 1;
    }

    /** The review state of `client`: selected, with the neighbours found (none when there was
        no search or it failed) and the nearest one up for comparison. */
    ghost predicate Reviewing(client: Client, parseFloat: ParseFloat, api: NearbyApi)
      reads this, client
    {
      var n := Neighbours(client.Data(), parseFloat, api);
      && selectedClient == client
      && nearbyCandidates == (if n.Some? then n.value else [])
      && candidateToCompare == (if n.Some? && |n.value| > 0 then Some(n.value[0]) else None)
    }

    /** `response` is the answer of `getPendingClients`, or `None` when it failed. */
    method FetchPendingClients(response: Option<PendingResult>)
      modifies this
      ensures response.Some? && response.value.success ==>
        pendingClients == response.value.data && totalPending == response.value.total && currentPage == response.value.page
      ensures !(response.Some? && response.value.success) ==>
        pendingClients == old(pendingClients) && totalPending == old(totalPending) && currentPage == old(currentPage)
      ensures selectedClient == old(selectedClient) && nearbyCandidates == old(nearbyCandidates)
      ensures candidateToCompare == old(candidateToCompare) && !isLoading
    {
      isLoading := true;
      if response.Some? && response.value.success {
        pendingClients := response.value.data;
        totalPending := response.value.total;
        currentPage := response.value.page;
      }
      isLoading := false;
    }

    method SetCandidateForComparison(candidate: Option<ClientData>)
      modifies this
      ensures candidateToCompare == candidate
      ensures selectedClient == old(selectedClient) && nearbyCandidates == old(nearbyCandidates)
      ensures pendingClients == old(pendingClients) && isLoading == old(isLoading)
      ensures totalPending == old(totalPending) && currentPage == old(currentPage)
    {
      candidateToCompare := candidate;
    }

    /** Selects a client, drops the previous neighbours and comparison, and searches around
        the client's position when it has one. */
    method SelectClientForReview(client: Client, parseFloat: ParseFloat, api: NearbyApi)
      modifies this
      ensures Reviewing(client, parseFloat, api)
      ensures isLoading == if SearchPoint(client.geopos, parseFloat).Some? then false else old(isLoading)
      ensures pendingClients == old(pendingClients) && totalPending == old(totalPending) && currentPage == old(currentPage)
    {
      selectedClient := client;
      nearbyCandidates := [];
      candidateToCompare := None;
      var geopos := client.geopos;
      if geopos != "" && ',' in geopos {
        var parts := Split(geopos, ',');
        var lat := parseFloat(parts[0]);
        var lng := parseFloat(if |parts| > 1 then parts[1] else "");
        if !lat.NaN? && !lng.NaN? {
          isLoading := true;
          var response := api(lat, lng, SearchRadius, client.clienteid);
          if response.Some? && response.value.success {
            nearbyCandidates := response.value.data;
            if |nearbyCandidates| > 0 {
              candidateToCompare := Some(nearbyCandidates[0]);
            }
          }
          isLoading := false;
        }
      }
    }

    /** Moves the review to the next pending client, when the selected one is in the list and
        not the last; otherwise changes nothing. */
    method SelectNextClient(parseFloat: ParseFloat, api: NearbyApi)
      modifies this
      ensures var n := if old(selectedClient) == null then None else NextIndex(Ids(old(pendingClients)), old(selectedClient).clienteid);
        && (n.None? ==>
          selectedClient == old(selectedClient) && nearbyCandidates == old(nearbyCandidates)
          && candidateToCompare == old(candidateToCompare) && isLoading == old(isLoading))
        && (n.Some? ==>
          var next := old(pendingClients)[n.value];
          Reviewing(next, parseFloat, api)
          && isLoading == if SearchPoint(next.geopos, parseFloat).Some? then false else old(isLoading))
      ensures pendingClients == old(pendingClients) && totalPending == old(totalPending) && currentPage == old(currentPage)
    {
      if selectedClient == null {
        return;
      }
      var currentIndex := IndexOf(Ids(pendingClients), selectedClient.clienteid);
      if currentIndex != -1 && currentIndex < |pendingClients| - 1 {
        var nextClient := pendingClients[currentIndex + 1];
        SelectClientForReview(nextClient, parseFloat, api);
      }
    }

    /** Sends the selected client to the server; on success moves on to the next client.
        Returns false when the request failed, where the source rethrows the error. */
    method SaveClientAction(saveApi: SaveApi, parseFloat: ParseFloat, api: NearbyApi) returns (ok: bool)
      modifies this
      ensures ok <==> old(selectedClient) == null || saveApi(old(selectedClient).clienteid, old(selectedClient.Data())) != SaveFailed
      ensures var n := if old(selectedClient) == null || saveApi(old(selectedClient).clienteid, old(selectedClient.Data())) != Saved
          then None else NextIndex(Ids(old(pendingClients)), old(selectedClient).clienteid);
        && (n.None? ==>
          selectedClient == old(selectedClient) && nearbyCandidates == old(nearbyCandidates)
          && candidateToCompare == old(candidateToCompare))
        && (n.Some? ==> Reviewing(old(pendingClients)[n.value], parseFloat, api))
      ensures old(selectedClient) != null ==> !isLoading
      ensures old(selectedClient) == null ==> isLoading == old(isLoading)
      ensures pendingClients == old(pendingClients) && totalPending == old(totalPending) && currentPage == old(currentPage)
    {
      if selectedClient == null {
        return true;
      }
      isLoading := true;
      var outcome := saveApi(selectedClient.clienteid, selectedClient.Data());
      ok := true;
      match outcome {
        case Saved =>
          SelectNextClient(parseFloat, api);
        case NotSaved =>
        case SaveFailed =>
          ok := false;
      }
      isLoading := false;
    }

    /** Homologates the selected client with the candidate under comparison. Returns whether
        their routes differ (the source alerts the reviewer then). Without a selected client
        or a candidate nothing happens. */
    method ApplyMatchLogic() returns (routeConflict: bool)
      modifies selectedClient
      ensures selectedClient == old(selectedClient) && candidateToCompare == old(candidateToCompare)
      ensures selectedClient != null && candidateToCompare.None? ==> selectedClient.Data() == old(selectedClient.Data())
      ensures selectedClient == null || candidateToCompare.None? ==> !routeConflict
      ensures selectedClient != null && candidateToCompare.Some? ==>
        && selectedClient.Data() == MatchMerge(old(selectedClient.Data()), candidateToCompare.value)
        && routeConflict == (selectedClient.ruta != candidateToCompare.value.ruta)
    {
      if selectedClient == null || candidateToCompare.None? {
        return false;
      }
      var master := selectedClient;
      var candidate := candidateToCompare.value;
      master.canal := Or(candidate.canal, candidate.canalm);
      master.canalm := Or(candidate.canalm, candidate.canal);
      master.formato := Or(candidate.formato, candidate.formatocte);
      master.formatocte := Or(candidate.formatocte, candidate.formato);
      master.gerencia := candidate.gerencia;
      master.zona := candidate.zona;
      master.jefatura := candidate.jefatura;
      if Truthy(candidate.umaf) {
        master.umaf := candidate.umaf;
      }
      routeConflict := master.ruta != candidate.ruta;
      if candidate.tipoCli != "" {
        master.tipoCli := candidate.tipoCli;
      }
    }

    /** Marks the selected client as new in `year` (the current year, read from the clock). */
    method ApplyNewClientLogic(year: int)
      modifies selectedClient
      ensures selectedClient == old(selectedClient)
      ensures selectedClient != null ==>
        selectedClient.Data() == old(selectedClient.Data()).(tipoCli := "Nuevo" + IntToString(year))
    {
      if selectedClient == null {
        return;
      }
      selectedClient.tipoCli := "Nuevo" + IntToString(year);
    }

    /** Marks the selected client as not analysed (`SA`) and saves it; an accepted save moves
        the review on, as `saveClientAction` does. */
    method ApplySkipLogic(saveApi: SaveApi, parseFloat: ParseFloat, api: NearbyApi) returns (ok: bool)
      modifies this, selectedClient
      ensures old(selectedClient) == null ==>
        ok && selectedClient == null && nearbyCandidates == old(nearbyCandidates)
        && candidateToCompare == old(candidateToCompare) && isLoading == old(isLoading)
      ensures old(selectedClient) != null ==>
        var skipped := old(selectedClient.Data()).(tipoCli := "SA");
        var outcome := saveApi(old(selectedClient).clienteid, skipped);
        var n := if outcome != Saved then None else NextIndex(Ids(old(pendingClients)), old(selectedClient).clienteid);
        && old(selectedClient).Data() == skipped
        && (ok <==> outcome != SaveFailed)
        && (n.None? ==>
          selectedClient == old(selectedClient) && nearbyCandidates == old(nearbyCandidates)
          && candidateToCompare == old(candidateToCompare))
        && (n.Some? ==> Reviewing(old(pendingClients)[n.value], parseFloat, api))
        && !isLoading
      ensures pendingClients == old(pendingClients) && totalPending == old(totalPending) && currentPage == old(currentPage)
    {
      if selectedClient == null {
        return true;
      }
      selectedClient.tipoCli := "SA";
      ok := SaveClientAction(saveApi, parseFloat, api);
    }
  }

  /** After a review, the candidate up for comparison is always the nearest neighbour found,
      and there is one exactly when the search found any. */
  lemma ReviewCandidateIsNearest(s: Store, client: Client, parseFloat: ParseFloat, api: NearbyApi)
    requires s.Reviewing(client, parseFloat, api)
    ensures s.candidateToCompare.Some? <==> |s.nearbyCandidates| > 0
    ensures s.candidateToCompare.Some? ==> s.candidateToCompare.value == s.nearbyCandidates[0]
  {
  }
}
