/** The PIC analyst chat: the message list, the greeting, the chart or table the user pinned
    as context, and what `sendMessage` sends to the language model (the prompt, with the
    pinned context injected, and the recent conversation as history). */
module PicChatStore {
  import opened Prelude

  datatype Role = User | Assistant | System

  /** The query the model may attach to a reply (`AiQueryConfig`); its filters are not used
      by the chat logic. */
  datatype QueryConfig = QueryConfig(metric: string, dimensions: seq<string>)

  /** A chat message; its timestamp is not part of the model. */
  datatype ChatMessage = ChatMessage(id: string, role: Role, text: string, chartConfig: Option<QueryConfig>)

  datatype ContextKind = Chart | Table

  function KindName(kind: ContextKind): string
  {
    match kind
    case Chart => "chart"
    case Table => "table"
  }

  /** A pinned chart or table. `dataJson` is `JSON.stringify` of its data: `None` when that
      gives `undefined` (undefined data, a function) or throws (circular data, a `BigInt`). */
  datatype ChatContext = ChatContext(id: string, title: string, dataJson: Option<string>, kind: ContextKind)

  /** One turn of the history sent to the model, whose roles are `user` and `model`. */
  datatype HistoryEntry = HistoryEntry(role: string, text: string)

  datatype ChatReply = ChatReply(explanation: string, queryConfig: Option<QueryConfig>)

  /** `sendChatPrompt(prompt, history)`: the reply, or the failure with the server's message
      when it sent one. */
  type ChatApi = (string, seq<HistoryEntry>) -> Result<ChatReply, Option<string>>

  const Greeting := "Hola, soy tu analista virtual de PIC. Puedes pedirme datos específicos o generar reportes."
  const DefaultError := "Hubo un error técnico al procesar tu solicitud."

  /** How many earlier messages the history looks at, and how much of the context data the
      prompt carries. */
  const HistoryWindow := 10
  const ContextDataLimit := 5000

  /** A system message is dropped; a user message stays `user`; every other one is `model`. */
  function ToEntry(m: ChatMessage): Option<HistoryEntry>
  {
    if m.role == System then None
    else Some(HistoryEntry(if m.role == User then "user" else "model", m.text))
  }

  /** The history of `sendMessage`: all messages but the last (the one just sent), the last
      ten of those, without system messages, with roles renamed. */
  function History(messages: seq<ChatMessage>): (h: seq<HistoryEntry>)
    ensures |h| <= HistoryWindow
  {
    var prior := if |messages| > 0 then messages[..|messages| - 1] else [];
    CollectLength(LastN(prior, HistoryWindow), ToEntry);
    Collect(LastN(prior, HistoryWindow), ToEntry)
  }

  /** `e` is the history entry of one of the ten latest messages of `prior`. */
  ghost predicate FromWindow(prior: seq<ChatMessage>, e: HistoryEntry)
  {
    exists k :: |prior| - HistoryWindow <= k < |prior| && 0 <= k && ToEntry(prior[k]) == Some(e)
  }

  lemma HistoryOfPrior(prior: seq<ChatMessage>, current: ChatMessage)
    ensures History(prior + [current]) == Collect(LastN(prior, HistoryWindow), ToEntry)
  {
    assert (prior + [current])[..|prior|] == prior;
  }

  lemma HistoryMember(prior: seq<ChatMessage>, e: HistoryEntry)
    ensures e in Collect(LastN(prior, HistoryWindow), ToEntry) <==> FromWindow(prior, e)
  {
    var window := LastN(prior, HistoryWindow);
    CollectMembership(window, ToEntry, e);
    if e in Collect(window, ToEntry) {
      WindowToPrior(prior, window, e);
    }
    if FromWindow(prior, e) {
      PriorToWindow(prior, window, e);
    }
  }

  lemma WindowToPrior(prior: seq<ChatMessage>, window: seq<ChatMessage>, e: HistoryEntry)
    requires window == LastN(prior, HistoryWindow)
    requires exists i :: 0 <= i < |window| && ToEntry(window[i]) == Some(e)
    ensures FromWindow(prior, e)
  {
    var i :| 0 <= i < |window| && ToEntry(window[i]) == Some(e);
    var k := |prior| - |window| + i;
    assert window[i] == prior[k];
    assert |window| == Min(HistoryWindow, |prior|);
    assert |prior| - HistoryWindow <= k < |prior| && 0 <= k && ToEntry(prior[k]) == Some(e);
  }

  lemma PriorToWindow(prior: seq<ChatMessage>, window: seq<ChatMessage>, e: HistoryEntry)
    requires window == LastN(prior, HistoryWindow)
    requires FromWindow(prior, e)
    ensures exists i :: 0 <= i < |window| && ToEntry(window[i]) == Some(e)
  {
    var k :| |prior| - HistoryWindow <= k < |prior| && 0 <= k && ToEntry(prior[k]) == Some(e);
    assert |window| == Min(HistoryWindow, |prior|);
    var i := k - (|prior| - |window|);
    assert window[i] == prior[k];
    assert 0 <= i < |window| && ToEntry(window[i]) == Some(e);
  }

  /** The history sent with a new message is built from the earlier messages alone: at most
      ten entries, with roles `user` and `model` only, each the renamed text of one of the ten
      latest earlier messages that is not a system message, and each of those gives an
      entry. */
  lemma HistoryMeaning(prior: seq<ChatMessage>, current: ChatMessage)
    ensures var h := History(prior + [current]);
      && |h| <= HistoryWindow
      && (forall e :: e in h ==> e.role == "user" || e.role == "model")
      && (forall e :: e in h <==> FromWindow(prior, e))
  {
    HistoryOfPrior(prior, current);
    var window := LastN(prior, HistoryWindow);
    CollectLength(window, ToEntry);
    var h := History(prior + [current]);
    forall e
      ensures e in h <==> FromWindow(prior, e)
    {
      HistoryMember(prior, e);
    }
    forall e | e in h
      ensures e.role == "user" || e.role == "model"
    {
      EntryRole(window, e);
    }
  }

  lemma EntryRole(messages: seq<ChatMessage>, e: HistoryEntry)
    requires e in Collect(messages, ToEntry)
    ensures e.role == "user" || e.role == "model"
  {
    CollectMembership(messages, ToEntry, e);
    var k :| 0 <= k < |messages| && ToEntry(messages[k]) == Some(e);
  }

  /** The history entry of a message that is not a system message. */
  function Renamed(m: ChatMessage): HistoryEntry
  {
    HistoryEntry(if m.role == User then "user" else "model", m.text)
  }

  /** With at most ten earlier messages and none of them a system message, the whole
      conversation so far is sent, message by message, in order, with roles renamed. */
  lemma HistoryShortConversation(prior: seq<ChatMessage>, current: ChatMessage)
    requires |prior| <= HistoryWindow
    requires forall k :: 0 <= k < |prior| ==> prior[k].role != System
    ensures History(prior + [current]) == seq(|prior|, i requires 0 <= i < |prior| => Renamed(prior[i]))
  {
    HistoryOfPrior(prior, current);
    assert LastN(prior, HistoryWindow) == prior;
    CollectRenamed(prior);
  }

  /** Messages none of which is a system message give one entry each, in order. */
  lemma {:induction false} CollectRenamed(ms: seq<ChatMessage>)
    requires forall k :: 0 <= k < |ms| ==> ms[k].role != System
    ensures Collect(ms, ToEntry) == seq(|ms|, i requires 0 <= i < |ms| => Renamed(ms[i]))
  {
    if ms != [] {
      var p := ms[..|ms| - 1];
      CollectRenamed(p);
      var last := ms[|ms| - 1];
      assert Listed(ToEntry(last)) == [Renamed(last)];
      var whole := seq(|ms|, i requires 0 <= i < |ms| => Renamed(ms[i]));
      var front := seq(|p|, i requires 0 <= i < |p| => Renamed(p[i]));
      assert whole == front + [Renamed(last)];
    }
  }

  const Indent := "                "

  /** The prompt with a pinned context: the element's title and kind, its data cut to 5000
      characters, then the user's question in quotes, in a template indented by 16 spaces. */
  function ContextPrompt(context: ChatContext, json: string, userText: string): string
  {
    "\n" + Indent + "[CONTEXTO VISUAL ACTIVO]\n"
    + Indent + "Elemento: \"" + context.title + "\" (" + KindName(context.kind) + ").\n"
    + Indent + "Datos: " + Prefix(json, ContextDataLimit) + ".\n"
    + Indent + "\n"
    + Indent + "[PREGUNTA USUARIO]\n"
    + Indent + "\"" + userText + "\"\n"
    + Indent
  }

  /** The text sent to the model: the user's text as typed, or the context prompt when a
      context is pinned; none when the context's data has no JSON text, where `slice` on
      `undefined` throws. */
  function Prompt(context: Option<ChatContext>, userText: string): (p: Option<string>)
    ensures context.None? ==> p == Some(userText)
    ensures context.Some? ==> (p.None? <==> context.value.dataJson.None?)
    ensures context.Some? && p.Some? ==> |p.value| > |userText|
  {
    if context.None? then Some(userText)
    else if context.value.dataJson.None? then None
    else Some(ContextPrompt(context.value, context.value.dataJson.value, userText))
  }

  /** Without a context the model gets exactly what was typed; with one whose data has a JSON
      text, the prompt ends with the question in quotes, and the data it carries is the start
      of that text, at most 5000 characters of it. */
  lemma PromptMeaning(context: Option<ChatContext>, userText: string)
    ensures context.None? ==> Prompt(context, userText) == Some(userText)
    ensures context.Some? && context.value.dataJson.None? ==> Prompt(context, userText) == None
    ensures context.Some? && context.value.dataJson.Some? ==>
      var p := Prompt(context, userText).value;
      var json := context.value.dataJson.value;
      var tail := "\"" + userText + "\"\n" + Indent;
      && |p| >= |tail| && p[|p| - |tail|..] == tail
      && |Prefix(json, ContextDataLimit)| <= ContextDataLimit
      && Prefix(json, ContextDataLimit) <= json
      && (|json| <= ContextDataLimit ==> Prefix(json, ContextDataLimit) == json)
  {
    if context.Some? && context.value.dataJson.Some? {
      var c := context.value;
      var json := c.dataJson.value;
      var head := "\n" + Indent + "[CONTEXTO VISUAL ACTIVO]\n"
        + Indent + "Elemento: \"" + c.title + "\" (" + KindName(c.kind) + ").\n"
        + Indent + "Datos: " + Prefix(json, ContextDataLimit) + ".\n"
        + Indent + "\n"
        + Indent + "[PREGUNTA USUARIO]\n"
        + Indent;
      var tail := "\"" + userText + "\"\n" + Indent;
      assert ContextPrompt(c, json, userText) == head + tail;
      assert (head + tail)[|head|..] == tail;
    }
  }

  // ---------------------------------------------------------------------------------------
  // Charts the model asks for
  // ---------------------------------------------------------------------------------------

  /** One row of the answer of `executeAiQuery`: its columns as text, and its `TotalMetric`. */
  datatype QueryRow = QueryRow(columns: map<string, string>, totalMetric: Option<real>)

  /** How `executeAiQuery` ends: with rows (an empty or missing answer is `Rows([])`), refused
      by the server with a status and maybe a message, or failed without an answer. */
  datatype QueryOutcome =
    | Rows(rows: seq<QueryRow>)
    | Rejected(status: int, message: Option<string>)
    | NoAnswer

  /** A chart for the dashboard: a bar chart of one dataset, with the query it came from.
      The rest of the chart library's configuration is not part of the model. */
  datatype DynamicWidget = DynamicWidget(
    id: string,
    title: string,
    labels: seq<string>,
    datasetLabel: string,
    values: seq<real>,
    rawQuery: QueryConfig,
    timestamp: nat)

  const NoRowsText := "La consulta es válida pero no devolvió resultados (0 registros)."
  const ChartErrorText := "Error técnico al generar el gráfico."
  const InvalidQueryText := "La consulta generada no es válida para la BD. Detalle: "

  /** The caption of a metric; an unknown metric is its own caption. */
  function MetricCaption(metric: string): string
  {
    if metric == "VENTA_KG" then "Venta (KG)"
    else if metric == "VENTA_$$" then "Venta ($)"
    else if metric == "METAS_KG" then "Meta (KG)"
    else metric
  }

  /** A missing column joins as empty text. */
  function Column(row: QueryRow, dimension: string): string
  {
    if dimension in row.columns then row.columns[dimension] else ""
  }

  /** The label of a row: its dimension columns joined by " - ". */
  function RowLabel(row: QueryRow, dimensions: seq<string>): string
  {
    Join(" - ", seq(|dimensions|, i requires 0 <= i < |dimensions| => Column(row, dimensions[i])))
  }

  /** The widget built from a query and its rows; `now` is the clock reading the source uses
      for the id and the timestamp. */
  function Widget(config: QueryConfig, rows: seq<QueryRow>, now: nat): (w: DynamicWidget)
    ensures |w.labels| == |rows| == |w.values| && w.rawQuery == config
    ensures forall i :: 0 <= i < |rows| ==>
      w.labels[i] == RowLabel(rows[i], config.dimensions) && w.values[i] == OrZero(rows[i].totalMetric)
    ensures w.datasetLabel == MetricCaption(config.metric)
    ensures w.id == NatToString(now) && w.timestamp == now
  {
    var caption := MetricCaption(config.metric);
    DynamicWidget(
      NatToString(now),
      "IA: " + caption + " por " + Join(", ", config.dimensions),
      seq(|rows|, i requires 0 <= i < |rows| => RowLabel(rows[i], config.dimensions)),
      caption,
      seq(|rows|, i requires 0 <= i < |rows| => OrZero(rows[i].totalMetric)),
      config,
      now)
  }

  /** The system message of a query that gives nothing to draw: none came back, the server
      refused it (with its detail for a 400), or there was no answer. */
  function FailureText(outcome: QueryOutcome): string
    requires !(outcome.Rows? && |outcome.rows| > 0)
  {
    match outcome
    case Rows(_) => NoRowsText
    case Rejected(status, message) =>
      if status == 400 then InvalidQueryText + (if Truthy(message) then message.value else "") else ChartErrorText
    case NoAnswer => ChartErrorText
  }

  /** `visualizeData` as written: a non-empty answer reaches `filterStore.addDynamicWidget`,
      which the filter store does not define, so the TypeError it raises is caught and the
      user reads the technical error; every outcome ends in a system message. */
  function FeedbackAsWritten(outcome: QueryOutcome): (text: string)
    ensures outcome.Rows? && |outcome.rows| > 0 ==> text == ChartErrorText
  {
    if outcome.Rows? && |outcome.rows| > 0 then ChartErrorText else FailureText(outcome)
  }

  /** `visualizeData` as intended: a non-empty answer becomes a widget without a message;
      every other outcome gets its system message. */
  function Feedback(outcome: QueryOutcome): (text: Option<string>)
    ensures text.None? <==> outcome.Rows? && |outcome.rows| > 0
  {
    if outcome.Rows? && |outcome.rows| > 0 then None else Some(FailureText(outcome))
  }

  /** As written, a query that returned rows is still reported as a technical failure, and
      the chart never reaches the dashboard. */
  lemma FeedbackAsWrittenLosesCharts(rows: seq<QueryRow>)
    requires |rows| > 0
    ensures FeedbackAsWritten(Rows(rows)) == ChartErrorText
    ensures Feedback(Rows(rows)) == None
  {
  }

  /** The intended feedback differs from the code as written only for answers with rows. */
  lemma FeedbackMeaning(outcome: QueryOutcome)
    ensures Feedback(outcome).Some? ==> Feedback(outcome).value == FeedbackAsWritten(outcome)
    ensures outcome.Rows? && outcome.rows == [] ==> Feedback(outcome) == Some(NoRowsText)
    ensures outcome.Rejected? && outcome.status == 400 ==>
      var t := Feedback(outcome).value;
      |t| >= |InvalidQueryText| && t[..|InvalidQueryText|] == InvalidQueryText
    ensures outcome.NoAnswer? || (outcome.Rejected? && outcome.status != 400) ==> Feedback(outcome) == Some(ChartErrorText)
  {
    if outcome.Rejected? && outcome.status == 400 {
      var t := Feedback(outcome).value;
      var d := if Truthy(outcome.message) then outcome.message.value else "";
      assert t == InvalidQueryText + d;
      assert (InvalidQueryText + d)[..|InvalidQueryText|] == InvalidQueryText;
    }
  }

  /** `find` by id: the first message with the id, or -1. */
  function FindMessage(ms: seq<ChatMessage>, id: string): (k: int)
    ensures -1 <= k < |ms|
    ensures k >= 0 ==> ms[k].id == id && forall i :: 0 <= i < k ==> ms[i].id != id
    ensures k < 0 ==> forall i :: 0 <= i < |ms| ==> ms[i].id != id
  {
    FirstIndex(ms, (m: ChatMessage) => m.id == id)
  }

  /** The query `visualizeData(id)` runs: that of the first message with the id, when it has
      one. */
  function ChartQuery(ms: seq<ChatMessage>, id: string): Option<QueryConfig>
  {
    var k := FindMessage(ms, id);
    if k >= 0 then ms[k].chartConfig else None
  }

  /** The messages and the widget after running the chart query `q`, if any. */
  datatype ChartStep = ChartStep(messages: seq<ChatMessage>, widget: Option<DynamicWidget>)

  function RunChart(ms: seq<ChatMessage>, q: Option<QueryConfig>, query: QueryConfig -> QueryOutcome,
                    now: nat, systemId: string): ChartStep
  {
    if q.None? then ChartStep(ms, None)
    else
      var outcome := query(q.value);
      match Feedback(outcome)
      case Some(text) => ChartStep(ms + [ChatMessage(systemId, System, text, None)], None)
      case None => ChartStep(ms, Some(Widget(q.value, outcome.rows, now)))
  }

  /** Running a chart query adds at most one message, a system one, and it adds one exactly
      when there is no widget; a widget appears exactly when the query returned rows. */
  lemma RunChartMeaning(ms: seq<ChatMessage>, q: Option<QueryConfig>, query: QueryConfig -> QueryOutcome,
                        now: nat, systemId: string)
    ensures var r := RunChart(ms, q, query, now, systemId);
      && (r.widget.Some? <==> q.Some? && query(q.value).Rows? && |query(q.value).rows| > 0)
      && (q.None? || r.widget.Some? ==> r.messages == ms)
      && (q.Some? && r.widget.None? ==>
            |r.messages| == |ms| + 1 && r.messages[..|ms|] == ms && r.messages[|ms|].role == System)
      && (r.widget.Some? ==> r.widget.value.rawQuery == q.value && |r.widget.value.values| == |query(q.value).rows|)
  {
    if q.Some? && Feedback(query(q.value)).Some? {
      var r := RunChart(ms, q, query, now, systemId);
      assert r.messages[..|ms|] == ms;
    }
  }

  class Store {
    var messages: seq<ChatMessage>
    var isLoading: bool
    var activeContext: Option<ChatContext>
    var isReportActive: bool

    constructor()
      ensures messages == [] && !isLoading && activeContext == None && !isReportActive
    {
      messages := [];
      isLoading := false;
      activeContext := None;
      isReportActive := false;
    }

    /** Appends one message; `id` stands for the clock-and-random id the source generates. */
    method AddMessage(id: string, role: Role, text: string, chartConfig: Option<QueryConfig>) returns (r: string)
      modifies this
      ensures messages == old(messages) + [ChatMessage(id, role, text, chartConfig)]
      ensures r == id
      ensures isLoading == old(isLoading) && activeContext == old(activeContext) && isReportActive == old(isReportActive)
    {
      messages := messages + [ChatMessage(id, role, text, chartConfig)];
      return id;
    }

    /** Greets, once: only an empty conversation gets the greeting. */
    method InitChat(greetingId: string)
      modifies this
      ensures old(messages) == [] ==> messages == [ChatMessage(greetingId, Assistant, Greeting, None)]
      ensures old(messages) != [] ==> messages == old(messages)
      ensures isLoading == old(isLoading) && activeContext == old(activeContext) && isReportActive == old(isReportActive)
    {
      if |messages| == 0 {
        var _ := AddMessage(greetingId, Assistant, Greeting, None);
      }
    }

    /** Pins a chart or table; `id` stands for the clock reading the source uses. */
    method SetContext(id: string, title: string, dataJson: Option<string>, kind: ContextKind)
      modifies this
      ensures activeContext == Some(ChatContext(id, title, dataJson, kind))
      ensures messages == old(messages) && isLoading == old(isLoading) && isReportActive == old(isReportActive)
    {
      activeContext := Some(ChatContext(id, title, dataJson, kind));
    }

    method ClearContext()
      modifies this
      ensures activeContext == None
      ensures messages == old(messages) && isLoading == old(isLoading) && isReportActive == old(isReportActive)
    {
      activeContext := None;
    }

    /** Starts over: only the greeting is left, and no context. */
    method ClearChat(greetingId: string)
      modifies this
      ensures messages == [ChatMessage(greetingId, Assistant, Greeting, None)]
      ensures activeContext == None
      ensures isLoading == old(isLoading) && isReportActive == old(isReportActive)
    {
      messages := [];
      ClearContext();
      InitChat(greetingId);
    }

    /** Runs the query of the message `messageId` and draws its chart, as `visualizeData` is
        evidently meant to: an answer with rows becomes a widget for the dashboard, and the
        report view is switched on; any other outcome posts its system message. As written,
        the call to the missing `addDynamicWidget` turns the rows case into the technical
        error message too (`FeedbackAsWritten`). A message without a query changes nothing.
        `now` and `systemId` stand for the clock reading and the generated message id. */
    method VisualizeData(messageId: string, query: QueryConfig -> QueryOutcome, now: nat, systemId: string)
      returns (widget: Option<DynamicWidget>)
      modifies this
      ensures ChartStep(messages, widget) == RunChart(old(messages), ChartQuery(old(messages), messageId), query, now, systemId)
      ensures isReportActive == (old(isReportActive) || widget.Some?)
      ensures isLoading == old(isLoading) && activeContext == old(activeContext)
    {
      var k := FindMessage(messages, messageId);
      if k < 0 || messages[k].chartConfig.None? {
        return None;
      }
      var config := messages[k].chartConfig.value;
      var localLoading := !isLoading;
      if localLoading {
        isLoading := true;
      }
      var outcome := query(config);
      match Feedback(outcome) {
        case Some(text) =>
          var _ := AddMessage(systemId, System, text, None);
          widget := None;
        case None =>
          widget := Some(Widget(config, outcome.rows, now));
          isReportActive := true;
      }
      if localLoading {
        isLoading := false;
      }
    }

    /** Sends a question. Blank text is ignored. Otherwise the question is appended. A pinned
        context whose data has no JSON text makes building the prompt throw, which appends
        the default error message and keeps the context. Otherwise the model gets the prompt
        and the history of the earlier messages, and then: a reply with text is appended as
        the assistant's, its chart query (if any) is run by the corrected `VisualizeData`, and
        the context is dropped; a failure appends a system message with the server's message
        or a default one and keeps the context.
        `userId`, `replyId` and `systemId` stand for the generated message ids, `now` for the
        clock reading. */
    method SendMessage(userText: string, userId: string, replyId: string, api: ChatApi,
                       query: QueryConfig -> QueryOutcome, now: nat, systemId: string)
      returns (widget: Option<DynamicWidget>)
      modifies this
      ensures IsBlank(userText) ==>
        messages == old(messages) && activeContext == old(activeContext) && isLoading == old(isLoading)
        && isReportActive == old(isReportActive) && widget.None?
      ensures !IsBlank(userText) ==>
        var sent := old(messages) + [ChatMessage(userId, User, userText, None)];
        && !isLoading
        && isReportActive == (old(isReportActive) || widget.Some?)
        && (Prompt(old(activeContext), userText).None? ==>
              && activeContext == old(activeContext) && widget.None?
              && messages == sent + [ChatMessage(replyId, System, DefaultError, None)])
      ensures !IsBlank(userText) && Prompt(old(activeContext), userText).Some? ==>
        var sent := old(messages) + [ChatMessage(userId, User, userText, None)];
        var response := api(Prompt(old(activeContext), userText).value, History(sent));
        && (response.Ok? && response.value.explanation == "" ==>
              activeContext == None && messages == sent && widget.None?)
        && (response.Ok? && response.value.explanation != "" ==>
              var withReply := sent + [ChatMessage(replyId, Assistant, response.value.explanation, response.value.queryConfig)];
              var q := if response.value.queryConfig.Some? then ChartQuery(withReply, replyId) else None;
              && activeContext == None
              && ChartStep(messages, widget) == RunChart(withReply, q, query, now, systemId))
        && (response.Err? ==>
              && activeContext == old(activeContext) && widget.None?
              && messages == sent + [ChatMessage(replyId, System, if Truthy(response.error) then response.error.value else DefaultError, None)])
    {
      widget := None;
      if IsBlank(userText) {
        return;
      }
      var _ := AddMessage(userId, User, userText, None);
      isLoading := true;
      var history := History(messages);
      var promptToSend := userText;
      if activeContext.Some? {
        if activeContext.value.dataJson.None? {
          var _ := AddMessage(replyId, System, DefaultError, None);
          isLoading := false;
          return;
        }
        promptToSend := ContextPrompt(activeContext.value, activeContext.value.dataJson.value, userText);
      }
      var response := api(promptToSend, history);
      match response {
        case Ok(reply) =>
          if reply.explanation != "" {
            var msgId := AddMessage(replyId, Assistant, reply.explanation, reply.queryConfig);
            if reply.queryConfig.Some? {
              widget := VisualizeData(msgId, query, now, systemId);
            }
          }
          ClearContext();
        case Err(message) =>
          var errorMsg := if Truthy(message) then message.value else DefaultError;
          var _ := AddMessage(replyId, System, errorMsg, None);
      }
      isLoading := false;
    }
  }
}
