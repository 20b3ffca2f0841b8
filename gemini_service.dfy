/**
 * The client wrapper around the text-generation service: lazy client
 * creation, chat-session creation with its seed history, and the three
 * structured generators. The network calls themselves are parameters:
 * `generate` maps the conversation transcript the prompt embeds to the
 * response text (or the error the call threw), and `parse` stands for
 * JSON.parse of that text.
 */
module GeminiService {
  import opened Base
  import opened Types

  // ---------------------------------------------------------------------
  // Transcript builders: filter, map to "ROLE: text", join with "\n\n"
  // ---------------------------------------------------------------------

  const Separator: string := "\n\n"

  /** Ids dropped from the summary transcript: the welcome and the init-error notes. */
  const SummaryExcluded: set<string> := {"init-1", "error-init"}

  /** Ids dropped from the simulation and diagram transcripts. */
  const ArtifactExcluded: set<string> := {"init-1"}

  function UpperChar(c: char): char {
    if 'a' <= c <= 'z' then (c as int - 32) as char else c
  }

  /** toUpperCase restricted to ASCII, which is all a role name contains. */
  function AsciiUpper(s: string): (r: string)
    ensures |r| == |s|
    ensures forall i :: 0 <= i < |s| ==> r[i] == UpperChar(s[i])
  {
    if s == [] then [] else [UpperChar(s[0])] + AsciiUpper(s[1..])
  }

  function RoleLabel(role: Role): (r: string)
    ensures r == (if role == User then "USER" else "MODEL")
  {
    var r := AsciiUpper(role.Name());
    assert r == (if role == User then "USER" else "MODEL");
    r
  }

  /** One transcript entry. */
  function Render(m: Message): string {
    RoleLabel(m.role) + ": " + m.text
  }

  /** The messages whose id is not excluded, in their original order. */
  function Kept(ms: seq<Message>, excluded: set<string>): (r: seq<Message>)
    ensures |r| <= |ms|
    ensures forall m :: m in r <==> m in ms && m.id !in excluded
  {
    if ms == [] then []
    else
      var init := Kept(ms[..|ms| - 1], excluded);
      var last := ms[|ms| - 1];
      assert forall m :: m in ms <==> m in ms[..|ms| - 1] || m == last;
      if last.id in excluded then init else init + [last]
  }

  function Lines(ms: seq<Message>): (r: seq<string>)
    ensures |r| == |ms|
  {
    seq(|ms|, i requires 0 <= i < |ms| => Render(ms[i]))
  }

  /** Array.prototype.join: separators only between entries. */
  function Join(parts: seq<string>, sep: string): string {
    if |parts| == 0 then ""
    else if |parts| == 1 then parts[0]
    else Join(parts[..|parts| - 1], sep) + sep + parts[|parts| - 1]
  }

  function ConversationText(ms: seq<Message>, excluded: set<string>): string {
    Join(Lines(Kept(ms, excluded)), Separator)
  }

  /** The transcript grows one entry at a time: a kept message adds its line,
      after a separator exactly when something was already there. */
  lemma ConversationTextSnoc(ms: seq<Message>, m: Message, excluded: set<string>)
    ensures ConversationText(ms + [m], excluded) ==
      if m.id in excluded then ConversationText(ms, excluded)
      else if Kept(ms, excluded) == [] then Render(m)
      else ConversationText(ms, excluded) + Separator + Render(m)
  {
    assert (ms + [m])[..|ms|] == ms;
    var k := Kept(ms, excluded);
    if m.id !in excluded {
      assert Lines(k + [m]) == Lines(k) + [Render(m)];
      assert Lines(k + [m])[..|k|] == Lines(k);
    }
  }

  /** Filtering one message keeps it exactly when its id is not excluded. */
  lemma KeptSingle(m: Message, excluded: set<string>)
    ensures Kept([m], excluded) == if m.id in excluded then [] else [m]
  {
    assert [m][..0] == [];
  }

  /** The filter works message by message and keeps their order and
      multiplicity: filtering a concatenation is concatenating the filtered
      parts. */
  lemma {:induction false} KeptAppend(a: seq<Message>, b: seq<Message>, excluded: set<string>)
    ensures Kept(a + b, excluded) == Kept(a, excluded) + Kept(b, excluded)
  {
    if b == [] {
      assert a + b == a;
    } else {
      var init, last := b[..|b| - 1], b[|b| - 1];
      assert (a + b)[..|a + b| - 1] == a + init;
      assert (a + b)[|a + b| - 1] == last;
      KeptAppend(a, init, excluded);
      if last.id !in excluded {
        assert Kept(a, excluded) + Kept(init, excluded) + [last] == Kept(a, excluded) + (Kept(init, excluded) + [last]);
      }
    }
  }

  /** Filtering twice is filtering once by the union of the exclusions. */
  lemma {:induction false} KeptTwice(ms: seq<Message>, a: set<string>, b: set<string>)
    ensures Kept(Kept(ms, a), b) == Kept(ms, a + b)
  {
    if ms != [] {
      var init := ms[..|ms| - 1];
      var last := ms[|ms| - 1];
      KeptTwice(init, a, b);
      var ka := Kept(init, a);
      if last.id !in a {
        assert (ka + [last])[..|ka|] == ka;
      }
    }
  }

  /** The summary transcript is the artifact transcript of the log without its
      'error-init' notes. */
  lemma SummaryTranscriptDropsErrorNotes(ms: seq<Message>)
    ensures ConversationText(ms, SummaryExcluded) == ConversationText(Kept(ms, {"error-init"}), ArtifactExcluded)
  {
    KeptTwice(ms, {"error-init"}, ArtifactExcluded);
    assert {"error-init"} + ArtifactExcluded == SummaryExcluded;
  }

  /** A non-empty join starts with its first entry and ends with its last:
      there is no leading or trailing separator. */
  lemma {:induction false} JoinEnds(parts: seq<string>, sep: string)
    requires |parts| > 0
    ensures parts[0] <= Join(parts, sep)
    ensures |parts[|parts| - 1]| <= |Join(parts, sep)|
    ensures Join(parts, sep)[|Join(parts, sep)| - |parts[|parts| - 1]|..] == parts[|parts| - 1]
  {
    if |parts| > 1 {
      var init := parts[..|parts| - 1];
      JoinEnds(init, sep);
      assert init[0] == parts[0];
      var j := Join(init, sep);
      assert parts[0] <= j;
      assert j <= j + sep + parts[|parts| - 1];
    }
  }

  /** With nothing kept, the transcript is the empty string. */
  lemma {:induction false} ConversationTextEmpty(ms: seq<Message>, excluded: set<string>)
    requires forall i :: 0 <= i < |ms| ==> ms[i].id in excluded
    ensures ConversationText(ms, excluded) == ""
  {
    if ms != [] {
      ConversationTextEmpty(ms[..|ms| - 1], excluded);
    }
  }

  // ---------------------------------------------------------------------
  // Client and chat session
  // ---------------------------------------------------------------------

  datatype Client = Client(apiKey: string)

  /** A chat handle; the collaborator keeps the history it was seeded with. */
  datatype Chat = Chat(client: Client, history: seq<Content>)

  const InitError: string := "Failed to initialize GoogleGenAI"
  const SummaryError: string := "No se pudo generar el resumen"
  const SimulationError: string := "Failed to generate simulation config"
  const DiagramError: string := "Failed to generate diagram data"

  const DefaultHistory: seq<Content> := [
    Content(User, "Hola, estoy listo para estructurar mi investigación."),
    Content(Model, "Bienvenido a **ARCH**. Soy su Arquitecto de Investigación. Para comenzar la **Fase 1**, por favor enuncie su idea preliminar. **¿Qué fenómeno desea estudiar?**")
  ]

  /** `customHistory || defaultHistory`: any supplied array, even an empty one, is truthy. */
  function SeedHistory(customHistory: Option<seq<Content>>): (r: seq<Content>)
    ensures customHistory.Some? ==> r == customHistory.value
    ensures customHistory.None? ==> |r| == 2 && r[0].role == User && r[1].role == Model
  {
    customHistory.GetOr(DefaultHistory)
  }

  /** The client after the `if (!genAI) initializeGemini()` guard. */
  function LazyClient(current: Option<Client>, apiKey: Option<string>): (r: Option<Client>)
    ensures current.Some? ==> r == current
    ensures current.None? ==> (r.Some? <==> Truthy(apiKey))
  {
    if current.Some? then current
    else if Truthy(apiKey) then Some(Client(apiKey.value))
    else None
  }

  /** The language word the diagram prompt demands. */
  function DiagramLanguage(language: Language): (r: string)
    ensures r == "SPANISH" <==> language == Es
    ensures language == En ==> r == "ENGLISH"
  {
    if language == Es then "SPANISH" else "ENGLISH"
  }

  /** What a generator makes of the collaborator's answer: a failed call
      propagates, an empty text is an error, otherwise the parsed value. */
  function FromResponse<T>(response: Result<string, string>, parse: string -> Result<T, string>, emptyError: string): (r: Result<T, string>)
    ensures response.Failure? ==> r == Failure(response.error)
    ensures response.Success? && response.value == "" ==> r == Failure(emptyError)
    ensures r.Success? ==> response.Success? && response.value != "" && parse(response.value) == r
    ensures response.Success? && response.value != "" ==> r == parse(response.value)
  {
    match response
    case Failure(e) => Failure(e)
    case Success(text) => if text == "" then Failure(emptyError) else parse(text)
  }

  /** The summary generator stamps the parsed summary with the current time. */
  function StampedSummary(parsed: Result<ProjectSummary, string>, now: string): (r: Result<ProjectSummary, string>)
    ensures r.Success? <==> parsed.Success?
    ensures r.Success? ==> r.value.timestamp == now
    ensures r.Success? ==> r.value.(timestamp := parsed.value.timestamp) == parsed.value
  {
    match parsed
    case Failure(e) => Failure(e)
    case Success(s) => Success(s.(timestamp := now))
  }

  /**
   * The module-level state of the service file: the client, created on first
   * use when an API key is configured, and the last chat session.
   */
  class Service {
    /** process.env.API_KEY; None when the variable is unset. */
    const apiKey: Option<string>
    var genAI: Option<Client>
    var chatSession: Option<Chat>

    constructor (apiKey: Option<string>)
      ensures this.apiKey == apiKey && genAI == None && chatSession == None
    {
      this.apiKey := apiKey;
      genAI := None;
      chatSession := None;
    }

    method InitializeGemini()
      modifies this`genAI
      ensures genAI == if Truthy(apiKey) then Some(Client(apiKey.value)) else old(genAI)
    {
      if apiKey.None? || apiKey.value == "" {
        return;
      }
      genAI := Some(Client(apiKey.value));
    }

    /** The two-line guard at the head of every exported operation. */
    method RequireClient() returns (client: Result<Client, string>)
      modifies this`genAI
      ensures genAI == LazyClient(old(genAI), apiKey)
      ensures client == if genAI.Some? then Success(genAI.value) else Failure(InitError)
    {
      if genAI.None? {
        InitializeGemini();
      }
      if genAI.None? {
        return Failure(InitError);
      }
      client := Success(genAI.value);
    }

    method StartChatSession(customHistory: Option<seq<Content>>) returns (r: Result<Chat, string>)
      modifies this
      ensures genAI == LazyClient(old(genAI), apiKey)
      ensures r == if genAI.None? then Failure(InitError) else Success(Chat(genAI.value, SeedHistory(customHistory)))
      ensures chatSession == if r.Success? then Some(r.value) else old(chatSession)
    {
      var client := RequireClient();
      if client.Failure? {
        return Failure(client.error);
      }
      chatSession := Some(Chat(client.value, SeedHistory(customHistory)));
      r := Success(chatSession.value);
    }

    method GenerateProjectStateSummary(messages: seq<Message>, generate: string -> Result<string, string>,
                                       parse: string -> Result<ProjectSummary, string>, now: string)
      returns (r: Result<ProjectSummary, string>)
      modifies this`genAI
      ensures genAI == LazyClient(old(genAI), apiKey)
      ensures r == if genAI.None? then Failure(InitError)
                   else StampedSummary(FromResponse(generate(ConversationText(messages, SummaryExcluded)), parse, SummaryError), now)
    {
      var client := RequireClient();
      if client.Failure? {
        return Failure(client.error);
      }
      var conversationText := ConversationText(messages, SummaryExcluded);
      var response := generate(conversationText);
      if response.Failure? {
        return Failure(response.error);
      }
      if response.value != "" {
        var data := parse(response.value);
        if data.Failure? {
          return Failure(data.error);
        }
        return Success(data.value.(timestamp := now));
      }
      r := Failure(SummaryError);
    }

    method GenerateSimulationConfig(messages: seq<Message>, generate: string -> Result<string, string>,
                                    parse: string -> Result<SimulationConfig, string>)
      returns (r: Result<SimulationConfig, string>)
      modifies this`genAI
      ensures genAI == LazyClient(old(genAI), apiKey)
      ensures r == if genAI.None? then Failure(InitError)
                   else FromResponse(generate(ConversationText(messages, ArtifactExcluded)), parse, SimulationError)
    {
      var client := RequireClient();
      if client.Failure? {
        return Failure(client.error);
      }
      var conversationText := ConversationText(messages, ArtifactExcluded);
      var response := generate(conversationText);
      if response.Failure? {
        return Failure(response.error);
      }
      if response.value != "" {
        return parse(response.value);
      }
      r := Failure(SimulationError);
    }

    /** `generate` receives the language word the prompt demands and the transcript. */
    method GenerateDiagramData(messages: seq<Message>, generate: (string, string) -> Result<string, string>,
                               parse: string -> Result<DiagramData, string>, language: Language := Es)
      returns (r: Result<DiagramData, string>)
      modifies this`genAI
      ensures genAI == LazyClient(old(genAI), apiKey)
      ensures r == if genAI.None? then Failure(InitError)
                   else FromResponse(generate(DiagramLanguage(language), ConversationText(messages, ArtifactExcluded)), parse, DiagramError)
    {
      var client := RequireClient();
      if client.Failure? {
        return Failure(client.error);
      }
      var conversationText := ConversationText(messages, ArtifactExcluded);
      var response := generate(DiagramLanguage(language), conversationText);
      if response.Failure? {
        return Failure(response.error);
      }
      if response.value != "" {
        return parse(response.value);
      }
      r := Failure(DiagramError);
    }
  }
}
