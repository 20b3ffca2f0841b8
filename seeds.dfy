/**
 * The seed histories the start paths hand to the chat collaborator: the
 * wizard's three turns, the file restore's four turns, and the demo
 * transcript. Also the fixed texts of the two interface languages that these
 * paths use.
 */
module Seeds {
  import opened Base
  import opened Types

  // ---------------------------------------------------------------------
  // Language tables (only the entries the start paths use)
  // ---------------------------------------------------------------------

  function RestoreTitle(language: Language): string {
    if language == Es then "PROYECTO RESTAURADO" else "PROJECT RESTORED"
  }

  function RestoreMsg(language: Language): string {
    if language == Es then "Recuperando contexto..." else "Recovering context..."
  }

  /** `language.toUpperCase()` */
  function LanguageTag(language: Language): string {
    if language == Es then "ES" else "EN"
  }

  /** `t` occurs in `s` at offset `i`. */
  predicate OccursAt(s: string, t: string, i: int) {
    0 <= i <= |s| - |t| && s[i..i + |t|] == t
  }

  /** `t` is a contiguous piece of `s`. */
  ghost predicate Contains(s: string, t: string) {
    exists i :: OccursAt(s, t, i)
  }

  /** A template literal: its pieces, concatenated in order. */
  function Cat(pieces: seq<string>): string {
    if pieces == [] then "" else pieces[0] + Cat(pieces[1..])
  }

  /** Every piece of a template occurs in the text it builds. */
  lemma {:induction false} CatContainsPiece(pieces: seq<string>, k: nat)
    requires k < |pieces|
    ensures OccursAt(Cat(pieces), pieces[k], |Cat(pieces[..k])|)
    ensures Contains(Cat(pieces), pieces[k])
  {
    if k == 0 {
      assert pieces[..0] == [];
      assert Cat(pieces)[..|pieces[0]|] == pieces[0];
    } else {
      CatContainsPiece(pieces[1..], k - 1);
      assert pieces[..k] == [pieces[0]] + pieces[1..][..k - 1];
      assert Cat(pieces[..k]) == pieces[0] + Cat(pieces[1..][..k - 1]);
      var off := |Cat(pieces[1..][..k - 1])|;
      assert Cat(pieces)[|pieces[0]| + off..|pieces[0]| + off + |pieces[k]|]
          == Cat(pieces[1..])[off..off + |pieces[k]|];
    }
    assert OccursAt(Cat(pieces), pieces[k], |Cat(pieces[..k])|);
  }

  // ---------------------------------------------------------------------
  // Wizard
  // ---------------------------------------------------------------------

  const WizardIndent: string := "\n      "

  /** The template's opening lines, up to the first answer. */
  function WizardHead(language: Language): string {
    WizardIndent + "[CONTEXT: User Language is " + LanguageTag(language) + "]"
    + WizardIndent + "CONTEXTO INICIAL DEL USUARIO:"
    + WizardIndent + "- Campo: "
  }

  const WizardTail: string :=
    WizardIndent + WizardIndent + "Por favor, inicia la Fase 1 analizando esta información preliminar." + WizardIndent

  /** The pieces of the template literal built from the three wizard answers. */
  function WizardIntroPieces(language: Language, data: WizardData): seq<string> {
    [ WizardHead(language),
      data.field,
      WizardIndent + "- Fenómeno: ",
      data.phenomenon,
      WizardIndent + "- Hipótesis inicial: ",
      data.hypothesis,
      WizardTail ]
  }

  function WizardIntroPrompt(language: Language, data: WizardData): string {
    Cat(WizardIntroPieces(language, data))
  }

  function WizardHistory(language: Language, data: WizardData): seq<Content> {
    [ Content(User, "Hola, quiero iniciar un proyecto."),
      Content(Model, "Bienvenido a ARCH. Por favor proporcione el contexto inicial."),
      Content(User, WizardIntroPrompt(language, data)) ]
  }

  /** The wizard's opening prompt carries all three answers verbatim. */
  lemma WizardPromptCarriesAnswers(language: Language, data: WizardData)
    ensures Contains(WizardIntroPrompt(language, data), data.field)
    ensures Contains(WizardIntroPrompt(language, data), data.phenomenon)
    ensures Contains(WizardIntroPrompt(language, data), data.hypothesis)
  {
    var pieces := WizardIntroPieces(language, data);
    CatContainsPiece(pieces, 1);
    CatContainsPiece(pieces, 3);
    CatContainsPiece(pieces, 5);
  }

  /** The wizard seed is user, model, user, and its last turn carries all
      three answers verbatim. */
  lemma WizardHistoryCarriesAnswers(language: Language, data: WizardData)
    ensures var h := WizardHistory(language, data);
            && |h| == 3 && h[0].role == User && h[1].role == Model && h[2].role == User
            && Contains(h[2].text, data.field)
            && Contains(h[2].text, data.phenomenon)
            && Contains(h[2].text, data.hypothesis)
  {
    WizardPromptCarriesAnswers(language, data);
  }

  // ---------------------------------------------------------------------
  // Restore from a saved summary
  // ---------------------------------------------------------------------

  const RestoreIndent: string := "\n        "

  /** `field ? `${tag}${field}` : ''` */
  function PhaseLine(tag: string, field: Option<string>): string {
    if Truthy(field) then tag + field.value else ""
  }

  /** The pieces of the restoration template literal: the metadata labels
      with the title and the last active phase, then the four phase lines. */
  function RestorationPieces(language: Language, summary: ProjectSummary): seq<string> {
    [ RestoreIndent + "**" + RestoreTitle(language) + "**"
      + RestoreIndent + "[METADATA]"
      + RestoreIndent + "TÍTULO: ",
      summary.projectTitle,
      RestoreIndent + "ESTADO: ",
      summary.lastActivePhase,
      RestoreIndent + RestoreIndent + "[SUMMARY]" + RestoreIndent,
      PhaseLine("F1 STRUCTURE: ", summary.phase1Structure),
      RestoreIndent,
      PhaseLine("F2 VARIABLES: ", summary.phase2Variables),
      RestoreIndent,
      PhaseLine("F3 RESOURCES: ", summary.phase3Resources),
      RestoreIndent,
      PhaseLine("F4 EXECUTION: ", summary.phase4Execution),
      RestoreIndent ]
  }

  function RestorationContext(language: Language, summary: ProjectSummary): string {
    Cat(RestorationPieces(language, summary))
  }

  function RestoreHistory(language: Language, summary: ProjectSummary): seq<Content> {
    [ Content(User, "System Start."),
      Content(Model, "Ready."),
      Content(User, RestorationContext(language, summary)),
      Content(Model, "Context Loaded.") ]
  }

  /** The local banner that replaces the visible log on a restore. */
  function RestoreBanner(language: Language, title: string): string {
    "**" + RestoreTitle(language) + "**: " + title + "\n\n*" + RestoreMsg(language) + "*"
  }

  /** The restoration context carries the title, the last active phase and a
      labelled line with the text of every truthy phase field. */
  lemma RestorationContextCarriesSummary(language: Language, summary: ProjectSummary)
    ensures var c := RestorationContext(language, summary);
            && Contains(c, summary.projectTitle)
            && Contains(c, summary.lastActivePhase)
            && (Truthy(summary.phase1Structure) ==> Contains(c, "F1 STRUCTURE: " + summary.phase1Structure.value))
            && (Truthy(summary.phase2Variables) ==> Contains(c, "F2 VARIABLES: " + summary.phase2Variables.value))
            && (Truthy(summary.phase3Resources) ==> Contains(c, "F3 RESOURCES: " + summary.phase3Resources.value))
            && (Truthy(summary.phase4Execution) ==> Contains(c, "F4 EXECUTION: " + summary.phase4Execution.value))
  {
    var pieces := RestorationPieces(language, summary);
    CatContainsPiece(pieces, 1);
    CatContainsPiece(pieces, 3);
    CatContainsPiece(pieces, 5);
    CatContainsPiece(pieces, 7);
    CatContainsPiece(pieces, 9);
    CatContainsPiece(pieces, 11);
  }

  /** The restore seed alternates user and model, and its context turn holds
      the title, the last active phase and every truthy phase field. */
  lemma RestoreHistoryCarriesPhases(language: Language, summary: ProjectSummary)
    ensures var h := RestoreHistory(language, summary);
            && |h| == 4
            && h[0].role == User && h[1].role == Model && h[2].role == User && h[3].role == Model
            && Contains(h[2].text, summary.projectTitle)
            && Contains(h[2].text, summary.lastActivePhase)
            && (Truthy(summary.phase1Structure) ==> Contains(h[2].text, "F1 STRUCTURE: " + summary.phase1Structure.value))
            && (Truthy(summary.phase2Variables) ==> Contains(h[2].text, "F2 VARIABLES: " + summary.phase2Variables.value))
            && (Truthy(summary.phase3Resources) ==> Contains(h[2].text, "F3 RESOURCES: " + summary.phase3Resources.value))
            && (Truthy(summary.phase4Execution) ==> Contains(h[2].text, "F4 EXECUTION: " + summary.phase4Execution.value))
  {
    RestorationContextCarriesSummary(language, summary);
  }

  /** A null or empty phase field contributes nothing: the context is the one
      built without it. */
  lemma RestorationOmitsFalsyPhases(language: Language, summary: ProjectSummary)
    ensures !Truthy(summary.phase1Structure) ==>
      RestorationContext(language, summary) == RestorationContext(language, summary.(phase1Structure := None))
    ensures !Truthy(summary.phase2Variables) ==>
      RestorationContext(language, summary) == RestorationContext(language, summary.(phase2Variables := None))
    ensures !Truthy(summary.phase3Resources) ==>
      RestorationContext(language, summary) == RestorationContext(language, summary.(phase3Resources := None))
    ensures !Truthy(summary.phase4Execution) ==>
      RestorationContext(language, summary) == RestorationContext(language, summary.(phase4Execution := None))
  {
  }

  // ---------------------------------------------------------------------
  // Demo
  // ---------------------------------------------------------------------

  /** The texts of the canned demo conversation, in order. */
  function DemoText(i: nat): string {
    match i
    case 0 => "Bienvenido a **ARCH**. Soy su Arquitecto de Investigación. Para comenzar la **Fase 1**, por favor enuncie su idea preliminar. **¿Qué fenómeno desea estudiar?**"
    case 1 => "Quiero investigar el efecto de la privación de sueño en el rendimiento cognitivo de estudiantes universitarios de ingeniería."
    case 2 => "Excelente punto de partida. Para garantizar rigor científico, debemos operacionalizar esto.\n\n**¿Cuál sería su Variable Independiente (X) específica y cómo planea manipularla?**"
    case 3 => "La Variable Independiente (X) serán las horas de sueño permitidas la noche anterior al test (0, 4, y 8 horas)."
    case 4 => "Entendido. Ahora la Variable Dependiente (Y). **¿Qué instrumento métrico utilizará para medir el 'rendimiento cognitivo'?**"
    case 5 => "Usaré el Test de Matrices Progresivas de Raven para medir razonamiento abstracto."
    case _ => "Muy bien. Hemos definido una estructura causal clara:\n\n$$X (Sueño) \\rightarrow Y (Puntaje Raven)$$\n\nAhora, formulemos las hipótesis estadísticas.\n\n$H_0$: $\\mu_{0h} = \\mu_{4h} = \\mu_{8h}$ (No hay diferencia significativa).\n$H_1$: $\\mu_{8h} > \\mu_{4h} > \\mu_{0h}$ (A mayor sueño, mayor rendimiento).\n\nEstamos listos para modelar las variables de confusión. **¿Ha considerado el consumo de cafeína como variable interviniente?**"
  }

  /** The demo conversation alternates roles, starting with the model. */
  function DemoRole(i: nat): Role {
    if i % 2 == 0 then Model else User
  }

  /** The id of the demo message at position i: "demo-1" to "demo-7". */
  function DemoId(i: nat): string
    requires i < 7
  {
    "demo-" + [('1' as int + i) as char]
  }

  /** The canned demo conversation, alternating model and user from the
      model's welcome. It is a module-level constant, so its timestamps are
      offsets from the moment the page loaded, not from the moment the demo
      is chosen: 100 s before `pageLoadTime`, then every 10 s. */
  function DemoMessages(pageLoadTime: Timestamp): (r: seq<Message>)
    ensures |r| == 7
  {
    seq(7, i requires 0 <= i < 7 =>
      Message(DemoId(i), DemoRole(i), DemoText(i), pageLoadTime - 100000 + 10000 * i, false))
  }

  /** The demo roles open with the model and then alternate. */
  lemma DemoRoleAlternates()
    ensures DemoRole(0) == Model
    ensures forall i :: 0 <= i < 6 ==> DemoRole(i) != DemoRole(i + 1)
  {
    forall i | 0 <= i < 6
      ensures DemoRole(i) != DemoRole(i + 1)
    {
      assert (i % 2 == 0) != ((i + 1) % 2 == 0);
    }
  }

  /** Message i of the demo transcript has role `DemoRole(i)`: with
      `DemoRoleAlternates`, the transcript opens with the model. */
  lemma DemoMessagesRoles(pageLoadTime: Timestamp)
    ensures forall i :: 0 <= i < 7 ==> DemoMessages(pageLoadTime)[i].role == DemoRole(i)
  {
  }

  /** Neighbouring messages of the demo transcript have different roles. */
  lemma DemoMessagesAlternate(pageLoadTime: Timestamp)
    ensures forall i :: 0 <= i < 6 ==> DemoMessages(pageLoadTime)[i].role != DemoMessages(pageLoadTime)[i + 1].role
  {
    var r := DemoMessages(pageLoadTime);
    DemoRoleAlternates();
    forall i | 0 <= i < 6
      ensures r[i].role != r[i + 1].role
    {
      assert r[i].role == DemoRole(i) && r[i + 1].role == DemoRole(i + 1);
    }
  }

  /** The ids run from "demo-1" to "demo-7". */
  lemma DemoIdRange()
    ensures DemoId(0) == "demo-1" && DemoId(6) == "demo-7"
  {
    assert ('1' as int + 0) as char == '1';
    assert ('1' as int + 6) as char == '7';
  }

  lemma DemoIdsDistinct(i: nat, j: nat)
    requires i < j < 7
    ensures DemoId(i) != DemoId(j)
  {
    assert DemoId(i)[5] != DemoId(j)[5];
  }

  /** Message i of the demo carries id `DemoId(i)`, and the ids are all distinct. */
  lemma DemoMessagesIds(pageLoadTime: Timestamp)
    ensures forall i :: 0 <= i < 7 ==> DemoMessages(pageLoadTime)[i].id == DemoId(i)
    ensures forall i, j :: 0 <= i < j < 7 ==> DemoMessages(pageLoadTime)[i].id != DemoMessages(pageLoadTime)[j].id
  {
    var r := DemoMessages(pageLoadTime);
    forall i, j | 0 <= i < j < 7
      ensures r[i].id != r[j].id
    {
      assert r[i].id == DemoId(i) && r[j].id == DemoId(j);
      DemoIdsDistinct(i, j);
    }
  }

  /** The demo transcript is in chronological order before the page load, and
      nothing in it is streaming. */
  lemma DemoMessagesChronological(pageLoadTime: Timestamp)
    ensures forall i, j :: 0 <= i < j < 7 ==> DemoMessages(pageLoadTime)[i].timestamp < DemoMessages(pageLoadTime)[j].timestamp
    ensures DemoMessages(pageLoadTime)[6].timestamp < pageLoadTime
    ensures forall i :: 0 <= i < 7 ==> !DemoMessages(pageLoadTime)[i].isStreaming
  {
  }

  /** The messages mapped to role and text. */
  function ToHistory(messages: seq<Message>): (r: seq<Content>)
    ensures |r| == |messages|
    ensures forall i :: 0 <= i < |messages| ==> r[i] == Content(messages[i].role, messages[i].text)
  {
    if messages == [] then []
    else ToHistory(messages[..|messages| - 1]) + [Content(messages[|messages| - 1].role, messages[|messages| - 1].text)]
  }

  const DemoSimulationConfig: SimulationConfig := SimulationConfig(
    [ SimulationVariable("sleepHours", "Horas de Sueño", 0.0, 10.0, 4.0,
                         "Horas de descanso permitidas antes de la evaluación cognitiva.") ],
    "Puntaje Raven (0-60)",
    "35",
    "20 + 3 * sleepHours",
    "Modelo Lineal: Se asume que por cada hora adicional de sueño, el puntaje en el test de Raven aumenta en 3 puntos, partiendo de una base de 20.")

  const DemoSimValues: map<string, real> := map["sleepHours" := 4.0]

  /** The nodes of the demo's preloaded diagram, in order. */
  function DemoNode(i: nat): DiagramNode {
    match i
    case 0 => DiagramNode("n1", "Problema", Completed, "Disminución de rendimiento cognitivo en estudiantes.", ["n2"])
    case 1 => DiagramNode("n2", "Hipótesis", Completed, "Privación de sueño afecta negativamente el razonamiento abstracto.", ["n3"])
    case 2 => DiagramNode("n3", "Variables", Active, "VI: Horas de sueño (0, 4, 8) | VD: Test Raven.", ["n4"])
    case _ => DiagramNode("n4", "Ejecución", Pending, "Diseño experimental y recolección de datos.", [])
  }

  const DemoDiagramData: DiagramData := DiagramData(seq(4, i requires 0 <= i < 4 => DemoNode(i)))
}
