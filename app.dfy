/**
 * The application's chat controller: the message log and the state the
 * handlers update step by step — sending a message and folding the streamed
 * reply into the log, the three ways of starting a session (wizard, restore
 * from a saved summary, demo), fetching the simulation configuration and the
 * diagram, and saving.
 */
module App {
  import opened Base
  import opened Types
  import opened ChatLog
  import opened Seeds
  import opened Persistence
  import Chart
  import GeminiService

  datatype ViewState = MenuView | WizardView | ChatView

  datatype StartMode = WizardMode | ScratchMode | LoadMode | DemoMode

  /** The welcome message the log starts with. */
  function WelcomeMessage(now: Timestamp): Message {
    Message("init-1", Model, "Bienvenido al sistema **ARCH**. Soy su Arquitecto de Investigación.", now, false)
  }

  // ---------------------------------------------------------------------
  // String.prototype.trim
  // ---------------------------------------------------------------------

  /** ECMAScript WhiteSpace and LineTerminator code points. */
  predicate IsJsWhitespace(c: char) {
    var n := c as int;
    || 0x09 <= n <= 0x0D || n == 0x20 || n == 0xA0 || n == 0x1680
    || 0x2000 <= n <= 0x200A || n == 0x2028 || n == 0x2029 || n == 0x202F || n == 0x205F
    || n == 0x3000 || n == 0xFEFF
  }

  predicate Blank(s: string) {
    forall i :: 0 <= i < |s| ==> IsJsWhitespace(s[i])
  }

  function TrimStart(s: string): string {
    if s != [] && IsJsWhitespace(s[0]) then TrimStart(s[1..]) else s
  }

  function TrimEnd(s: string): string {
    if s != [] && IsJsWhitespace(s[|s| - 1]) then TrimEnd(s[..|s| - 1]) else s
  }

  function Trim(s: string): string {
    TrimEnd(TrimStart(s))
  }

  lemma {:induction false} TrimStartEmptyIffBlank(s: string)
    ensures TrimStart(s) == "" <==> Blank(s)
    ensures TrimStart(s) != "" ==> !IsJsWhitespace(TrimStart(s)[0])
  {
    if s != [] && IsJsWhitespace(s[0]) {
      TrimStartEmptyIffBlank(s[1..]);
      assert Blank(s) <==> Blank(s[1..]) by {
        assert forall i :: 1 <= i < |s| ==> s[i] == s[1..][i - 1];
      }
    }
  }

  lemma {:induction false} TrimEndEmptyIffBlank(s: string)
    ensures TrimEnd(s) == "" <==> Blank(s)
  {
    if s != [] && IsJsWhitespace(s[|s| - 1]) {
      TrimEndEmptyIffBlank(s[..|s| - 1]);
      assert Blank(s) <==> Blank(s[..|s| - 1]) by {
        assert forall i :: 0 <= i < |s| - 1 ==> s[i] == s[..|s| - 1][i];
      }
    }
  }

  /** `!input.trim()` holds exactly for inputs made of white space alone. */
  lemma TrimEmptyIffBlank(s: string)
    ensures Trim(s) == "" <==> Blank(s)
  {
    TrimStartEmptyIffBlank(s);
    TrimEndEmptyIffBlank(TrimStart(s));
  }

  // ---------------------------------------------------------------------
  // The send handler's outcome, as a value
  // ---------------------------------------------------------------------

  /** The guard of the send handler. */
  predicate CanSend(input: string, session: Option<GeminiService.Chat>, isLoading: bool) {
    Trim(input) != "" && session.Some? && !isLoading
  }

  function UserTurn(stamp: Stamp, text: string): Message {
    Message(stamp.id, User, text, stamp.time, false)
  }

  /** The empty, streaming assistant message a reply is folded into. */
  function Placeholder(id: string, time: Timestamp): Message {
    Message(id, Model, "", time, true)
  }

  function ErrorTurn(stamp: Stamp): Message {
    Message(stamp.id, Model, "Error.", stamp.time, false)
  }

  /** The log after a send that passed the guard. */
  function SendOutcome(log: seq<Message>, text: string, user: Stamp, response: Stamp, error: Stamp, reply: Reply): seq<Message> {
    match reply
    case Refused => log + [UserTurn(user, text), ErrorTurn(error)]
    case Streamed(chunks, broken) =>
      log + [UserTurn(user, text), Finished(Placeholder(response.id, response.time), chunks, broken)]
      + (if broken then [ErrorTurn(error)] else [])
  }

  /** A send keeps the old log as a prefix, then adds the user's turn, then
      model turns only: the streamed answer with the whole accumulated text
      when a stream was opened, and one "Error." turn exactly when the call
      failed. */
  lemma SendOutcomeShape(log: seq<Message>, text: string, user: Stamp, response: Stamp, error: Stamp, reply: Reply)
    requires response.id != error.id
    ensures var r := SendOutcome(log, text, user, response, error, reply);
            && |r| == |log| + (if reply.Streamed? && reply.broken then 3 else 2)
            && r[..|log|] == log
            && r[|log|] == Message(user.id, User, text, user.time, false)
            && (forall i :: |log| < i < |r| ==> r[i].role == Model)
            && (reply.Streamed? ==> r[|log| + 1].id == response.id && r[|log| + 1].text == Accumulate(reply.chunks))
            && (reply.Streamed? ==> (r[|log| + 1].isStreaming <==> reply.broken))
            && ((reply.Refused? || reply.broken) <==> r[|r| - 1] == Message(error.id, Model, "Error.", error.time, false))
  {
  }

  /** A send that completes leaves the number of streaming-flagged messages
      as it was; a stream that breaks leaves one more, since the failed
      placeholder is never cleared. */
  lemma SendStreamingCount(log: seq<Message>, text: string, user: Stamp, response: Stamp, error: Stamp, reply: Reply)
    ensures StreamingCount(SendOutcome(log, text, user, response, error, reply))
            == StreamingCount(log) + (if reply.Streamed? && reply.broken then 1 else 0)
  {
    var u, e := UserTurn(user, text), ErrorTurn(error);
    StreamingCountOne(u);
    StreamingCountOne(e);
    StreamingCountAppend(log, [u]);
    match reply
    case Refused =>
      assert SendOutcome(log, text, user, response, error, reply) == (log + [u]) + [e];
      StreamingCountAppend(log + [u], [e]);
    case Streamed(chunks, broken) =>
      var m := Finished(Placeholder(response.id, response.time), chunks, broken);
      StreamingCountOne(m);
      StreamingCountAppend(log + [u], [m]);
      if broken {
        assert SendOutcome(log, text, user, response, error, reply) == (log + [u] + [m]) + [e];
        StreamingCountAppend(log + [u] + [m], [e]);
      } else {
        assert SendOutcome(log, text, user, response, error, reply) == log + [u] + [m];
      }
  }

  /** Two sends whose streams break leave two messages flagged as streaming,
      even though each send is admitted only when no stream is running. */
  lemma TwoBrokenStreamsLeaveTwoFlags(log: seq<Message>, text: string, u1: Stamp, r1: Stamp, e1: Stamp,
                                      u2: Stamp, r2: Stamp, e2: Stamp, chunks1: seq<Option<string>>, chunks2: seq<Option<string>>)
    requires StreamingCount(log) == 0
    ensures var first := SendOutcome(log, text, u1, r1, e1, Streamed(chunks1, true));
            StreamingCount(SendOutcome(first, text, u2, r2, e2, Streamed(chunks2, true))) == 2
  {
    var first := SendOutcome(log, text, u1, r1, e1, Streamed(chunks1, true));
    SendStreamingCount(log, text, u1, r1, e1, Streamed(chunks1, true));
    SendStreamingCount(first, text, u2, r2, e2, Streamed(chunks2, true));
  }

  /** The writes a stream made into the placeholder ending `before + [placeholder]`:
      log k is that log with the placeholder holding text k, the texts only
      grow, and each is a prefix of `final`. */
  ghost predicate Trace(before: seq<Message>, placeholder: Message, updates: seq<string>, snapshots: seq<seq<Message>>, final: string) {
    && |snapshots| == |updates|
    && (forall k :: 0 <= k < |updates| ==> snapshots[k] == before + [placeholder.(text := updates[k])])
    && (forall k :: 0 <= k < |updates| ==> updates[k] <= final)
    && (forall k, l :: 0 <= k <= l < |updates| ==> updates[k] <= updates[l])
  }

  lemma TraceExtend(before: seq<Message>, placeholder: Message, updates: seq<string>, snapshots: seq<seq<Message>>,
                    previous: string, next: string)
    requires Trace(before, placeholder, updates, snapshots, previous)
    requires previous <= next
    ensures Trace(before, placeholder, updates + [next], snapshots + [before + [placeholder.(text := next)]], next)
  {
  }

  /** The demo's preloaded chart is the worked example: the slider at 4 on
      [0, 10] samples from 1.5 to 6.0. */
  lemma DemoChartSamples(eval: Chart.Evaluator)
    ensures |Chart.ChartSpec(Some(DemoSimulationConfig), DemoSimValues, eval)| == 10
    ensures Chart.ChartSpec(Some(DemoSimulationConfig), DemoSimValues, eval)[0].x == 1.5
    ensures Chart.ChartSpec(Some(DemoSimulationConfig), DemoSimValues, eval)[9].x == 6.0
  {
    Chart.WorkedExample(DemoSimulationConfig, DemoSimValues, eval);
  }

  /**
   * The React component's state, as far as the handlers below touch it.
   * `service` is the service file's module-level state.
   */
  class ChatController {
    const service: GeminiService.Service
    var language: Language
    var viewState: ViewState
    var messages: seq<Message>
    var input: string
    var isLoading: bool
    var chatSession: Option<GeminiService.Chat>
    var simulationConfig: Option<SimulationConfig>
    var simValues: map<string, real>
    var diagramData: Option<DiagramData>

    constructor (service: GeminiService.Service, now: Timestamp)
      ensures this.service == service
      ensures language == Es && viewState == MenuView
      ensures messages == [WelcomeMessage(now)] && input == "" && !isLoading
      ensures chatSession == None && simulationConfig == None && simValues == map[] && diagramData == None
    {
      this.service := service;
      language := Es;
      viewState := MenuView;
      messages := [WelcomeMessage(now)];
      input := "";
      isLoading := false;
      chatSession := None;
      simulationConfig := None;
      simValues := map[];
      diagramData := None;
    }

    /** Starts a chat session; a failure is swallowed and leaves the handle as it was. */
    method InitSession(customHistory: Option<seq<Content>>) returns (session: Option<GeminiService.Chat>)
      modifies this`chatSession, service
      ensures service.genAI == GeminiService.LazyClient(old(service.genAI), service.apiKey)
      ensures session == if service.genAI.Some? then Some(GeminiService.Chat(service.genAI.value, GeminiService.SeedHistory(customHistory))) else None
      ensures chatSession == if session.Some? then session else old(chatSession)
      ensures service.chatSession == if session.Some? then session else old(service.chatSession)
    {
      var r := service.StartChatSession(customHistory);
      if r.Failure? {
        return None;
      }
      chatSession := Some(r.value);
      session := Some(r.value);
    }

    /**
     * The `for await` loop over one reply: each non-empty chunk is appended
     * to the buffer and the buffer written, by id, into the placeholder that
     * ends the log. `updates` lists the texts written, in order, and
     * `snapshots` the log after each write.
     */
    method ConsumeStream(chunks: seq<Option<string>>, responseId: string)
      returns (ghost updates: seq<string>, ghost snapshots: seq<seq<Message>>)
      requires |messages| > 0
      requires messages[|messages| - 1].id == responseId && messages[|messages| - 1].text == ""
      requires IdFree(messages[..|messages| - 1], responseId)
      modifies this`messages
      ensures messages == old(messages)[..|old(messages)| - 1] + [old(messages)[|old(messages)| - 1].(text := Accumulate(chunks))]
      ensures updates == Writes(chunks)
      ensures Trace(old(messages)[..|old(messages)| - 1], old(messages)[|old(messages)| - 1], updates, snapshots, Accumulate(chunks))
    {
      var before := messages[..|messages| - 1];
      var placeholder := messages[|messages| - 1];
      assert messages == before + [placeholder];
      var fullResponseText := "";
      updates, snapshots := [], [];
      for i := 0 to |chunks|
        invariant fullResponseText == Accumulate(chunks[..i])
        invariant messages == before + [placeholder.(text := fullResponseText)]
        invariant updates == Writes(chunks[..i])
        invariant Trace(before, placeholder, updates, snapshots, fullResponseText)
      {
        assert chunks[..i + 1][..i] == chunks[..i];
        var chunkText := chunks[i];
        if chunkText.Some? && chunkText.value != "" {
          ghost var previous := fullResponseText;
          fullResponseText := fullResponseText + chunkText.value;
          TraceExtend(before, placeholder, updates, snapshots, previous, fullResponseText);
          SetTextOnLast(before, placeholder.(text := previous), fullResponseText);
          messages := SetTextById(messages, responseId, fullResponseText);
          updates, snapshots := updates + [fullResponseText], snapshots + [messages];
        } else {
          assert fullResponseText == Accumulate(chunks[..i + 1]);
        }
      }
      assert chunks[..|chunks|] == chunks;
    }

    /** handleSendMessage */
    method HandleSendMessage(reply: Reply, user: Stamp, response: Stamp, error: Stamp)
      requires IdFree(messages, response.id) && user.id != response.id
      modifies this`messages, this`input, this`isLoading
      ensures !CanSend(old(input), chatSession, old(isLoading)) ==>
        messages == old(messages) && input == old(input) && isLoading == old(isLoading)
      ensures CanSend(old(input), chatSession, old(isLoading)) ==>
        messages == SendOutcome(old(messages), old(input), user, response, error, reply) && input == "" && !isLoading
    {
      if Trim(input) == "" || chatSession.None? || isLoading {
        return;
      }
      var userMessage := UserTurn(user, input);
      messages := messages + [userMessage];
      input := "";
      isLoading := true;
      match reply {
        case Refused =>
          messages := messages + [ErrorTurn(error)];
        case Streamed(chunks, broken) =>
          var before := messages;
          var placeholder := Placeholder(response.id, response.time);
          messages := messages + [placeholder];
          assert messages[..|messages| - 1] == before;
          ghost var updates, snapshots := ConsumeStream(chunks, response.id);
          if broken {
            messages := messages + [ErrorTurn(error)];
          } else {
            StopStreamingOnLast(before, placeholder.(text := Accumulate(chunks)));
            messages := StopStreamingById(messages, response.id);
          }
      }
      isLoading := false;
    }

    /** Opens a placeholder as the log's last message and streams the reply into it. */
    method StreamReply(before: seq<Message>, responseId: string, time: Timestamp, chunks: seq<Option<string>>, broken: bool)
      requires IdFree(before, responseId)
      modifies this`messages
      ensures messages == before + [Finished(Placeholder(responseId, time), chunks, broken)]
    {
      var placeholder := Placeholder(responseId, time);
      messages := before + [placeholder];
      assert messages[..|messages| - 1] == before;
      ghost var updates, snapshots := ConsumeStream(chunks, responseId);
      if !broken {
        StopStreamingOnLast(before, placeholder.(text := Accumulate(chunks)));
        messages := StopStreamingById(messages, responseId);
      }
    }

    /** handleWizardComplete: seed a three-turn history, then replace the log
        by the streamed first answer. */
    method HandleWizardComplete(data: WizardData, reply: Reply, time: Timestamp)
      modifies this`viewState, this`isLoading, this`messages, this`chatSession, service
      ensures viewState == ChatView && !isLoading
      ensures service.genAI == GeminiService.LazyClient(old(service.genAI), service.apiKey)
      ensures chatSession == if service.genAI.Some? then Some(GeminiService.Chat(service.genAI.value, WizardHistory(language, data)))
                             else old(chatSession)
      ensures service.chatSession == if service.genAI.Some? then chatSession else old(service.chatSession)
      ensures messages == if service.genAI.None? || reply.Refused? then old(messages)
                          else [Finished(Placeholder("wizard-response", time), reply.chunks, reply.broken)]
    {
      viewState := ChatView;
      isLoading := true;
      var history := WizardHistory(language, data);
      var session := InitSession(Some(history));
      if session.None? {
        isLoading := false;
        return;
      }
      match reply {
        case Refused =>
        case Streamed(chunks, broken) =>
          StreamReply([], "wizard-response", time, chunks, broken);
      }
      isLoading := false;
    }

    /** The file-restore path of handleFileChange. `file` is the chosen file's
        text, if any; `parse` stands for JSON.parse. */
    method HandleFileChange(file: Option<string>, parse: string -> Result<ProjectSummary, string>, reply: Reply,
                            bannerTime: Timestamp, responseTime: Timestamp)
      modifies this`viewState, this`isLoading, this`messages, this`chatSession, service
      ensures file.None? ==> viewState == old(viewState) && isLoading == old(isLoading) && messages == old(messages)
                             && chatSession == old(chatSession) && service.genAI == old(service.genAI)
                             && service.chatSession == old(service.chatSession)
      ensures file.Some? && parse(file.value).Failure? ==>
        viewState == old(viewState) && !isLoading && messages == old(messages)
        && chatSession == old(chatSession) && service.genAI == old(service.genAI)
        && service.chatSession == old(service.chatSession)
      ensures file.Some? && parse(file.value).Success? ==>
        var summary := parse(file.value).value;
        var banner := Message("restore-msg", Model, RestoreBanner(language, summary.projectTitle), bannerTime, false);
        && viewState == ChatView && !isLoading
        && service.genAI == GeminiService.LazyClient(old(service.genAI), service.apiKey)
        && chatSession == (if service.genAI.Some? then Some(GeminiService.Chat(service.genAI.value, RestoreHistory(language, summary)))
                           else old(chatSession))
        && service.chatSession == (if service.genAI.Some? then chatSession else old(service.chatSession))
        && messages == (if service.genAI.None? || reply.Refused? then [banner]
                        else [banner, Finished(Placeholder("restoration-response", responseTime), reply.chunks, reply.broken)])
    {
      if file.None? {
        return;
      }
      var projectData := parse(file.value);
      if projectData.Failure? {
        isLoading := false;
        return;
      }
      var summary := projectData.value;
      viewState := ChatView;
      isLoading := true;
      var history := RestoreHistory(language, summary);
      var session := InitSession(Some(history));
      var banner := Message("restore-msg", Model, RestoreBanner(language, summary.projectTitle), bannerTime, false);
      messages := [banner];
      if session.Some? {
        match reply {
          case Refused =>
          case Streamed(chunks, broken) =>
            StreamReply([banner], "restoration-response", responseTime, chunks, broken);
        }
      }
      isLoading := false;
    }

    /** The demo branch of handleStartSelection: install the canned
        transcript and artifacts, and seed a session with the transcript.
        The transcript's timestamps were fixed when the page loaded. */
    method LoadDemo(pageLoadTime: Timestamp)
      modifies this`viewState, this`messages, this`simulationConfig, this`simValues, this`diagramData, this`chatSession, service
      ensures viewState == ChatView
      ensures messages == DemoMessages(pageLoadTime)
      ensures simulationConfig == Some(DemoSimulationConfig) && simValues == DemoSimValues
      ensures diagramData == Some(DemoDiagramData)
      ensures service.genAI == GeminiService.LazyClient(old(service.genAI), service.apiKey)
      ensures chatSession == if service.genAI.Some? then Some(GeminiService.Chat(service.genAI.value, ToHistory(DemoMessages(pageLoadTime))))
                             else old(chatSession)
      ensures service.chatSession == if service.genAI.Some? then chatSession else old(service.chatSession)
    {
      // The session call touches only the session handle and the client, so
      // making it before the assignments below changes no outcome.
      var demo := DemoMessages(pageLoadTime);
      var _ := InitSession(Some(ToHistory(demo)));
      viewState := ChatView;
      messages := demo;
      simulationConfig := Some(DemoSimulationConfig);
      simValues := DemoSimValues;
      diagramData := Some(DemoDiagramData);
    }

    /** handleStartSelection */
    method HandleStartSelection(mode: StartMode, pageLoadTime: Timestamp)
      modifies this`viewState, this`messages, this`simulationConfig, this`simValues, this`diagramData, this`chatSession, service
      ensures mode == WizardMode ==> viewState == WizardView && unchanged(service) && chatSession == old(chatSession)
      ensures mode == LoadMode ==> viewState == old(viewState) && unchanged(service) && chatSession == old(chatSession)
      ensures mode == ScratchMode || mode == DemoMode ==> viewState == ChatView
      ensures mode != DemoMode ==> messages == old(messages) && simulationConfig == old(simulationConfig)
                                   && simValues == old(simValues) && diagramData == old(diagramData)
      ensures mode == ScratchMode ==>
        && service.genAI == GeminiService.LazyClient(old(service.genAI), service.apiKey)
        && chatSession == (if service.genAI.Some? then Some(GeminiService.Chat(service.genAI.value, GeminiService.DefaultHistory))
                           else old(chatSession))
        && service.chatSession == (if service.genAI.Some? then chatSession else old(service.chatSession))
      ensures mode == DemoMode ==>
        && messages == DemoMessages(pageLoadTime)
        && simulationConfig == Some(DemoSimulationConfig) && simValues == DemoSimValues
        && diagramData == Some(DemoDiagramData)
        && service.genAI == GeminiService.LazyClient(old(service.genAI), service.apiKey)
        && chatSession == (if service.genAI.Some? then Some(GeminiService.Chat(service.genAI.value, ToHistory(DemoMessages(pageLoadTime))))
                           else old(chatSession))
        && service.chatSession == (if service.genAI.Some? then chatSession else old(service.chatSession))
    {
      if mode == WizardMode {
        viewState := WizardView;
      } else if mode == ScratchMode {
        viewState := ChatView;
        var _ := InitSession(None);
      } else if mode == LoadMode {
        // Opens the file picker; the restore runs in HandleFileChange.
      } else {
        LoadDemo(pageLoadTime);
      }
    }

    /** openSimulation: fetch a configuration only when none is held, and
        reset the sliders to its defaults. */
    method OpenSimulation(generate: string -> Result<string, string>, parse: string -> Result<SimulationConfig, string>)
      modifies this`simulationConfig, this`simValues, service`genAI
      ensures old(simulationConfig).Some? ==>
        simulationConfig == old(simulationConfig) && simValues == old(simValues) && service.genAI == old(service.genAI)
      ensures old(simulationConfig).None? ==>
        var fetched := if service.genAI.None? then Failure(GeminiService.InitError)
                       else GeminiService.FromResponse(generate(GeminiService.ConversationText(messages, GeminiService.ArtifactExcluded)),
                                                       parse, GeminiService.SimulationError);
        && service.genAI == GeminiService.LazyClient(old(service.genAI), service.apiKey)
        && simulationConfig == (if fetched.Success? then Some(fetched.value) else None)
        && simValues == (if fetched.Success? then Chart.Defaults(fetched.value.independentVariables) else old(simValues))
    {
      if simulationConfig.None? {
        var config := service.GenerateSimulationConfig(messages, generate, parse);
        if config.Success? {
          simulationConfig := Some(config.value);
          var defaults := Chart.DefaultValues(config.value.independentVariables);
          simValues := defaults;
        }
      }
    }

    /** openDiagram: always refetch; keep the old diagram on failure. */
    method OpenDiagram(generate: (string, string) -> Result<string, string>, parse: string -> Result<DiagramData, string>)
      modifies this`diagramData, service`genAI
      ensures var fetched := if service.genAI.None? then Failure(GeminiService.InitError)
                             else GeminiService.FromResponse(
                               generate(GeminiService.DiagramLanguage(language), GeminiService.ConversationText(messages, GeminiService.ArtifactExcluded)),
                               parse, GeminiService.DiagramError);
              && service.genAI == GeminiService.LazyClient(old(service.genAI), service.apiKey)
              && diagramData == (if fetched.Success? then Some(fetched.value) else old(diagramData))
    {
      var data := service.GenerateDiagramData(messages, generate, parse, language);
      if data.Success? {
        diagramData := Some(data.value);
      }
    }

    /** handleSaveProgress: the name of the file offered for download, if any. */
    method SaveProgress(generate: string -> Result<string, string>, parse: string -> Result<ProjectSummary, string>, now: string)
      returns (download: Option<string>)
      modifies service`genAI
      ensures !CanSave(messages) ==> download == None && service.genAI == old(service.genAI)
      ensures CanSave(messages) ==>
        var summary := if service.genAI.None? then Failure(GeminiService.InitError)
                       else GeminiService.StampedSummary(GeminiService.FromResponse(
                              generate(GeminiService.ConversationText(messages, GeminiService.SummaryExcluded)), parse, GeminiService.SummaryError), now);
        && service.genAI == GeminiService.LazyClient(old(service.genAI), service.apiKey)
        && download == (if summary.Success? then Some(DownloadName(summary.value.projectTitle)) else None)
    {
      if |messages| < 2 {
        return None;
      }
      var summary := service.GenerateProjectStateSummary(messages, generate, parse, now);
      if summary.Failure? {
        return None;
      }
      download := Some(DownloadName(summary.value.projectTitle));
    }

    /** calculateChartData over the held configuration and slider values. */
    method ChartData(eval: Chart.Evaluator) returns (data: seq<Chart.ChartPoint>)
      ensures data == Chart.ChartSpec(simulationConfig, simValues, eval)
    {
      data := Chart.CalculateChartData(simulationConfig, simValues, eval);
    }
  }
}
