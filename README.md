# ARCH research assistant — a Dafny model of its controller and Gemini service

ARCH is a single-page React application. A researcher uses it to structure a
project in four phases together with a Gemini chat model. This project models
the parts of the application that hold and change its state. It proves what
those parts promise.

- **The chat controller** (`App.tsx`), modelled as the class
  `App.ChatController`. It holds the message log, the input box, the loading
  flag, the chat-session handle and the three artifacts: the simulation
  configuration, the slider values and the diagram. Its handlers are modelled:
  - the start menu (wizard, blank chat, load a file, demo);
  - wizard completion;
  - sending a message, with the streamed reply written into a placeholder
    message by id;
  - restoring from a saved file;
  - opening the simulation and the diagram;
  - saving;
  - computing the ten-point hypothesis chart.
- **The three-step wizard form** (`Wizard.WizardForm`).
- **The Gemini service module** (`services/geminiService.ts`), modelled as
  `GeminiService.Service`. It holds the lazily created client and the current
  chat session. It also builds the transcripts sent to the model for the
  summary, the simulation and the diagram.
- **The data types** of `types.ts` (`Types`).
- **The templates and canned data** the controller uses (`Seeds`): the wizard's
  opening prompt, the restoration context, the restore banner, the demo
  transcript, the demo simulation and the demo diagram.
- **The file name offered on save** (`Persistence`).

Everything outside the program becomes a parameter:
- the network replies, and `JSON.parse` (as a `Result`);
- the formula evaluator behind `new Function` (`Chart.Evaluator`);
- the clock, and the `Date.now()` message ids (`ChatLog.Stamp`);
- the chosen file's text;
- the API key.

A streamed reply is a `ChatLog.Reply`. It is either refused outright, or a
sequence of chunks that may end in an error (`broken`).

Each handler that changes state is a method with a `modifies` frame. It states
its whole new state in terms of functions of the old state. The properties
are proved about those functions:
- how the streamed text accumulates;
- id-addressed updates that touch only their own message;
- transcript filtering;
- the chart's sampling;
- the file-name sanitiser;
- the seed templates carrying the user's data.

## Model

| member | source | states |
|---|---|---|
| App.ChatController.constructor | App.tsx:427-452 | The app opens on the menu. The log is the single welcome message "init-1". The input is empty, nothing is loading, and there is no session, simulation, slider map or diagram. |
| App.TrimEmptyIffBlank | App.tsx:567 | `input.trim()` is empty exactly when every character of the input is JavaScript whitespace. This is the first half of the send guard. |
| App.TrimStartEmptyIffBlank | App.tsx:567 | Trimming leading whitespace leaves nothing exactly when the string is blank. |
| App.TrimEndEmptyIffBlank | App.tsx:567 | Trimming trailing whitespace leaves nothing exactly when the string is blank. |
| App.ChatController.InitSession | App.tsx:458-467 | Starts a session from the given history, or from the default history when none is given. It stores the session both in the controller and as the service's current session. A failure (no API key) is swallowed: it returns nothing and keeps both old handles. |
| App.ChatController.ConsumeStream | App.tsx:587-595 | The `for await` loop. Each non-empty chunk is appended to the buffer, and the buffer is written into the placeholder by id. Every intermediate log is the earlier messages followed by the placeholder carrying a prefix of the final text. The sequence of texts written is exactly `Writes(chunks)`: one write per chunk with text, each the text accumulated up to that chunk. The texts written only grow. The final text is the concatenation of the non-empty chunks. |
| App.ChatController.HandleSendMessage | App.tsx:566-618 | A blank input, a missing session or a pending request leaves the log, the input and the loading flag untouched. Otherwise the log becomes `SendOutcome` of the old log, the input is cleared and loading ends. The service's session handle is left as it was. |
| App.SendOutcomeShape | App.tsx:566-618 | The shape of the log after a send. Appended, in order: the user's turn, then the reply with the accumulated text, then "Error." if the request or the stream failed. A refused request gives the user turn plus "Error." and no placeholder. Everything before is untouched. The reply stays marked streaming exactly when the stream broke. The log grows by 3 for a broken stream and by 2 otherwise. |
| App.SendStreamingCount | App.tsx:566-618 | A send adds exactly one streaming message when the stream breaks and none otherwise. |
| App.TwoBrokenStreamsLeaveTwoFlags | App.tsx:587-609 | Two sends whose streams both break leave two messages marked streaming, on top of those already there. |
| App.ChatController.StreamReply | App.tsx:537-557 | Appends a streaming placeholder and streams into it. Afterwards the placeholder holds the accumulated text, and its streaming flag is cleared only when the stream completed. |
| App.ChatController.HandleWizardComplete | App.tsx:509-564 | Switches to the chat view. Seeds a session with the three-turn wizard history. If the session exists and the reply is not refused, the log is replaced by the single streamed "wizard-response". Otherwise the log is unchanged. Loading ends in every case. The new session, when there is one, is also the service's current session. |
| App.ChatController.HandleFileChange | App.tsx:693-772 | Without a file nothing changes. A parse failure changes nothing but clears loading. Otherwise: the chat view is shown; a session is seeded with the four-turn restoration history; the log becomes the restore banner "restore-msg", followed by the streamed "restoration-response" when a session exists and the reply is not refused. The service's session handle changes only in that last case, to the new session. |
| App.ChatController.LoadDemo | App.tsx:491-506 | Installs the seven demo messages (timestamped from the moment the page loaded), the demo configuration, the slider map {sleepHours: 4} and the demo diagram. Seeds a session whose history mirrors the demo messages turn by turn. That session, when there is one, is also the service's current session. |
| App.ChatController.HandleStartSelection | App.tsx:483-507 | "wizard" only switches to the wizard view. "scratch" switches to chat and starts a session with the default history. "load" changes no state. "demo" runs the demo load. Only "demo" touches the log and the artifacts. |
| App.DemoChartSamples | App.tsx:163-178 | The demo's preloaded chart has ten samples, from 1.5 to 6.0. |
| App.ChatController.OpenSimulation | App.tsx:629-647 | With a configuration already held, nothing changes. Otherwise a configuration is fetched from the artifact transcript. On success it is stored and the sliders are reset to its variables' defaults. On failure nothing is stored. |
| App.ChatController.OpenDiagram | App.tsx:649-660 | Always refetches, asking in the UI language. A success replaces the diagram. A failure keeps the previous one. |
| App.ChatController.SaveProgress | App.tsx:670-691 | Fewer than two messages: no call and no download. Otherwise the summary is fetched from the summary transcript, and on success the file offered is named after its title. |
| App.ChatController.ChartData | App.tsx:774-807 | The chart over the held configuration and slider values. |
| Chart.CalculateChartData | App.tsx:774-807 | The loop's result equals `ChartSpec`. There are no points without a configuration or an independent variable. Otherwise there are ten points: point i is at `start + (range/10)·i` and carries the two hypotheses evaluated in the slider scope with the main variable overridden. |
| Chart.ChartLength | App.tsx:775-779 | The chart has 10 points with a usable configuration and 0 without one. |
| Chart.FirstPointAtLeastMin | App.tsx:783 | The first sample is never below the variable's minimum. |
| Chart.SamplesIncrease | App.tsx:785-786 | When max > min, the samples are strictly increasing. |
| Chart.SampleSpacing | App.tsx:786 | Neighbouring samples are (max − min)/20 apart. |
| Chart.PointEvaluation | App.tsx:787-797 | Each point's H0 and H1 are the formulas evaluated with the main variable set to the sample. A failing H0 gives (0, 0), and a failing H1 keeps H0 and gives H1 = 0. |
| Chart.ThrowingH0GivesZeros | App.tsx:787-797 | When H0 always throws, all ten points are plotted at (0, 0). |
| Chart.WorkedExample | App.tsx:780-786 | On [0, 10] with the slider at 4, the samples run from 1.5 to 6.0. |
| Chart.UpperEndNotClamped | App.tsx:783-786 | Only the lower end is clamped. On [0, 10] with the slider at 10, the last sample is 12, past the maximum. |
| Chart.DefaultValues | App.tsx:636-640 | The `forEach` builds `Defaults`: each variable name mapped to its default, later duplicates winning. |
| Chart.DefaultsKeys | App.tsx:636-640 | The defaults map has exactly the variables' names as keys. |
| Chart.DefaultsValue | App.tsx:636-640 | A name's value is the default of its last occurrence. |
| Chart.FreshConfigCentredOnDefault | App.tsx:636-640 | Right after a configuration is fetched, the chart is centred on the main variable's default, provided no later variable reuses its name. |
| ChatLog.AccumulateAppend | App.tsx:589-594 | The accumulated text of two chunk runs is the concatenation of their texts. |
| ChatLog.AccumulatePrefix | App.tsx:589-594 | The text accumulated so far is always a prefix of the text accumulated later. |
| ChatLog.AccumulateSilent | App.tsx:589-594 | Chunks without text leave the reply empty. |
| ChatLog.SetTextById | App.tsx:592-593 | Rewriting by id changes only the text of the messages with that id. Every other message and the length are kept. |
| ChatLog.StopStreamingById | App.tsx:598-599 | Clearing the flag by id changes only the messages with that id. |
| ChatLog.SetTextOnLast | App.tsx:592-593 | With a fresh id, a rewrite touches exactly the placeholder at the end of the log. |
| ChatLog.StopStreamingOnLast | App.tsx:598-599 | With a fresh id, clearing the flag touches exactly the placeholder at the end. |
| ChatLog.StreamingCountAppend | App.tsx:578-599 | The count of streaming messages is additive over concatenation. |
| ChatLog.StreamingCountOne | App.tsx:578-599 | A single message counts one exactly when it is streaming. |
| ChatLog.WritesPrefixOfFinal | App.tsx:589-594 | Every text written into the placeholder is a prefix of the final reply. |
| ChatLog.WritesIncrease | App.tsx:589-594 | Each text written extends every earlier one. |
| ChatLog.WritesLast | App.tsx:589-594 | When anything was written, the last text written is the whole final reply. |
| ChatLog.WritesEmptyIffSilent | App.tsx:589-594 | Nothing is written exactly when no chunk carries text. |
| GeminiService.Service.constructor | services/geminiService.ts:44-45 | The module starts with no client and no session. |
| GeminiService.Service.InitializeGemini | services/geminiService.ts:47-53 | With a non-empty API key, a client is created from it. Without one, the client is left as it was. |
| GeminiService.LazyClient | services/geminiService.ts:56-57 | An existing client is reused. Otherwise a client exists afterwards exactly when the API key is non-empty. |
| GeminiService.Service.RequireClient | services/geminiService.ts:83-84 | Initialises lazily. Fails with "Failed to initialize GoogleGenAI" when no client results. |
| GeminiService.SeedHistory | services/geminiService.ts:59-76 | A supplied history is used as given. Without one, the two-turn default (user, then model) is used. |
| GeminiService.Service.StartChatSession | services/geminiService.ts:55-80 | Creates a session on the (lazily created) client from the seed history and stores it as the current session. Fails, storing nothing, when there is no client. |
| GeminiService.AsciiUpper | services/geminiService.ts:88 | `toUpperCase` on role names: the length is kept and letters are uppercased one by one. |
| GeminiService.RoleLabel | services/geminiService.ts:88 | A user turn is labelled "USER" and a model turn "MODEL". |
| GeminiService.Kept | services/geminiService.ts:86-87 | A message is in the filtered log exactly when it is in the log and its id is not excluded. The result is no longer than the log. |
| GeminiService.KeptSingle | services/geminiService.ts:86-87 | A single message is kept exactly when its id is not excluded. |
| GeminiService.KeptAppend | services/geminiService.ts:86-87 | Filtering a concatenation is concatenating the filtered parts. With `KeptSingle`, the filter keeps exactly the messages whose id is not excluded, in their order. |
| GeminiService.ConversationTextSnoc | services/geminiService.ts:86-89 | Appending a message extends the transcript by a blank-line separator and its "ROLE: text" line when it is kept. An excluded message leaves the transcript as it was. |
| GeminiService.KeptTwice | services/geminiService.ts:86-87 | Filtering twice is filtering once by the union of the exclusions. |
| GeminiService.SummaryTranscriptDropsErrorNotes | services/geminiService.ts:86-87 | The summary transcript is the artifact transcript with the "error-init" messages also removed. |
| GeminiService.JoinEnds | services/geminiService.ts:89 | The joined transcript starts with the first line and ends with the last. |
| GeminiService.ConversationTextEmpty | services/geminiService.ts:86-89 | A log of only excluded messages, such as the lone welcome, gives an empty transcript. |
| GeminiService.FromResponse | services/geminiService.ts:119-125 | A failed call propagates its error. An empty reply fails with the operation's message. A non-empty reply gives exactly what parsing it gives, and a success comes only that way. |
| GeminiService.StampedSummary | services/geminiService.ts:119-122 | A parsed summary gets its timestamp overwritten with the current time. Every other field is kept. |
| GeminiService.Service.GenerateProjectStateSummary | services/geminiService.ts:82-126 | Initialises lazily. Sends the transcript without "init-1" and "error-init". The result is the stamped, parsed reply, or "No se pudo generar el resumen" for an empty reply. |
| GeminiService.Service.GenerateSimulationConfig | services/geminiService.ts:128-178 | As above, with only "init-1" excluded and the simulation's own error message. |
| GeminiService.DiagramLanguage | services/geminiService.ts:191 | The prompt asks for SPANISH exactly when the language is Spanish, and for ENGLISH when it is English. |
| GeminiService.Service.GenerateDiagramData | services/geminiService.ts:180-225 | As the simulation, with the requested language (Spanish by default) and the diagram's error message. |
| Seeds.CatContainsPiece | App.tsx:513-521 | A template built from pieces contains each piece at the offset given by the pieces before it. |
| Seeds.WizardPromptCarriesAnswers | App.tsx:513-521 | The wizard's opening prompt contains the field, the phenomenon and the hypothesis verbatim. |
| Seeds.WizardHistoryCarriesAnswers | App.tsx:524-528 | The wizard seed is user, model, user. Its last turn is the opening prompt and carries all three answers verbatim. |
| Seeds.RestorationContextCarriesSummary | App.tsx:706-717 | The restoration context contains the project title, the last active phase and every truthy phase summary, each verbatim as a piece of its own. |
| Seeds.RestoreHistoryCarriesPhases | App.tsx:706-724 | The restoration seed is user, model, user, model ("System Start.", "Ready.", context, "Context Loaded."). Its third turn contains the title, the last active phase and every truthy phase summary. |
| Seeds.RestorationOmitsFalsyPhases | App.tsx:712-715 | A missing or empty phase leaves its line empty. |
| Seeds.DemoMessages | App.tsx:118-161 | The demo transcript has seven messages. |
| Seeds.DemoRoleAlternates | App.tsx:118-161 | The demo roles open with the model, and neighbouring roles differ. |
| Seeds.DemoMessagesRoles | App.tsx:118-161 | Message i of the demo has role `DemoRole(i)`, so the transcript opens with the model. |
| Seeds.DemoMessagesAlternate | App.tsx:118-161 | Neighbouring demo messages have different roles. |
| Seeds.DemoIdRange | App.tsx:118-161 | The demo ids run from "demo-1" to "demo-7". |
| Seeds.DemoIdsDistinct | App.tsx:118-161 | No two demo positions share an id. |
| Seeds.DemoMessagesIds | App.tsx:118-161 | Message i of the demo carries id `DemoId(i)`, and the seven ids are distinct. |
| Seeds.DemoMessagesChronological | App.tsx:118-161 | The demo timestamps increase, all lie before the moment the page loaded (the transcript is a module-level constant), and no demo message is streaming. |
| Seeds.ToHistory | App.tsx:501-504 | The demo history is the transcript turned turn by turn into (role, text) contents. |
| Persistence.Units | App.tsx:680 | A character below U+10000 is one UTF-16 code unit, itself. A character above is a high surrogate followed by a low surrogate that together encode it. |
| Persistence.Utf16Append | App.tsx:680 | The UTF-16 encoding of a concatenation is the concatenation of the encodings. |
| Persistence.Utf16Bmp | App.tsx:680 | For a string without characters above U+FFFF, the code units are the characters, position by position. |
| Persistence.ReplaceUnsafe | App.tsx:680 | `/[^a-z0-9]/gi` → '-', one UTF-16 code unit at a time: ASCII alphanumeric units are kept, and every other unit, each half of a surrogate pair included, becomes '-'. |
| Persistence.LowerCase | App.tsx:680 | Lower-casing character by character. |
| Persistence.SafeTitle | App.tsx:680 | The sanitised title has the title's JavaScript length (its count of UTF-16 code units) and uses only a–z, 0–9 and '-'. A position holds '-' exactly when the code unit there is not an ASCII alphanumeric. An alphanumeric unit comes out lower-cased. |
| Persistence.SafeTitleBmp | App.tsx:680 | For a title without characters above U+FFFF, sanitising works character by character: same length, and '-' exactly where the character is not an ASCII alphanumeric. |
| Persistence.SafeTitleAppend | App.tsx:680 | Sanitising distributes over concatenation. |
| Persistence.SafeTitleOutsideBmp | App.tsx:680 | A character above U+FFFF becomes "--", one '-' per surrogate. |
| Persistence.SafeTitleAstralExample | App.tsx:680 | The title "a" followed by U+1F9E0 becomes "a--". |
| Persistence.SafeTitleFixes | App.tsx:680 | A title already made of safe characters is unchanged. |
| Persistence.SafeTitleIdempotent | App.tsx:680 | Sanitising twice is sanitising once. |
| Persistence.DownloadName | App.tsx:680-681 | The file is "arch-" + sanitised title + ".json", so its name is ten characters longer than the title's JavaScript length. |
| Wizard.WizardForm.constructor | App.tsx:318-319 | The wizard starts at step 1 with three empty answers. |
| Wizard.WizardForm.NextStep | App.tsx:389-411 | Next advances only when enabled: before step 3, and with the current step's answer non-empty. |
| Wizard.WizardForm.PrevStep | App.tsx:389-392 | Back is offered, and moves, only after step 1. |
| Wizard.WizardForm.Edit | App.tsx:347-386 | Typing edits the answer of the visible step only. |
| Wizard.WizardForm.Submit | App.tsx:402-410 | The form is submitted exactly at step 3 with a hypothesis. The submitted answers are then all non-empty. |

## Left out

- The JSX rendering is left out: the menu, the message list, the markdown rendering, the modals, the chart and diagram drawing, scrolling and the slider widgets. They only display state. Moving a slider is a plain assignment to `simValues` and is not modelled.
- The I18N table and the language toggle are left out. Only the restore strings and the language tag used by the modelled handlers are kept.
- The UI-only flags `showSimulation`, `showDiagram`, `isSimLoading`, `isDiagramLoading` and `isSaving` are left out. They only drive spinners and modals.
- The directive messages that open a wizard or restored session (the wizard's kick-off request and the restore action) are left out: the streamed reply they trigger is a `Reply` parameter, so their text has no effect in the model.
- `handleResetSession` (confirm, then reload the page) is left out: it discards all state through the browser.
- The network calls, the system instruction, the prompt wording, the model name, the temperature and the response schemas are left out. Each call is a function parameter returning the reply text or an error.
- `JSON.parse` and the casts are left out. They are a `parse` parameter, so malformed JSON is a `Failure`. A parsed object missing `projectTitle` cannot be expressed, because `ProjectSummary` has a title.
- `new Function` formula evaluation is left out. It is the `Chart.Evaluator` parameter: a failure stands for a thrown exception.
- Numbers are reals: NaN and ±Infinity are not modelled. Neither is the `toFixed(1)` label of each chart point.
- Chart.CurrentValue treats a missing or zero slider value as "use the default". This covers JavaScript's `||` on numbers except NaN, which is not modelled.
- `Date.now()` ids and `new Date()` timestamps are parameters (`Stamp`). The requirement that the reply's id is fresh in the log stands for the clock advancing.
- The `async` interleaving is left out: each handler runs to completion, and a second handler cannot run during a stream. React's batched state updates are modelled as sequential assignments.
- `console`, `alert`, the download link, the Blob and URL objects, and the file reader are left out. The chosen file's text is an `Option` parameter. The name of the offered file is the result of the save.
- `types.ts`' `ResearchPhase` and `ProjectState` are left out: the modelled code does not use them. `label` fields are named `displayLabel`, and the `phaseN_…` fields are named `phaseN…` in camel case.
- GeminiService.DiagramLanguage: the "ENGLISH" clause is stated only for `En`. Every non-Spanish value yields ENGLISH, and `Language` has no third value.

## Where the code and its design description differ

This model follows the code. The code differs from the design description of
the application in these places:

- **Streaming flags.** The design says at most one message is streaming at a
  time. In the code, a reply whose stream breaks keeps `isStreaming: true`
  forever, because the flag is cleared only after a completed loop.
  `App.TwoBrokenStreamsLeaveTwoFlags` shows two such messages after two
  failed sends.
- **Restored files are not validated.** The design says a file without a
  title is rejected. The code casts whatever `JSON.parse` returns.
- **Non-finite results are not zeroed.** The design says non-finite formula
  results are plotted as 0. The code only zeroes results that throw.
- **Error turns.** The wizard and restore flows add no "Error." turn on
  failure. Only sending a message does.
