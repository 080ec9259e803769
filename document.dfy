/**
 * Document assembly: the head, header, main, aside, footer and script
 * sections of the accessible HTML document, each a template over the
 * analysis and the discipline profile, and the page that joins them.
 *
 * Template text is abbreviated to the element structure: each section keeps
 * its landmark elements, every interpolated value in the source's order,
 * and the attributes the accessibility validator looks for (`role=`,
 * `tabindex`, `aria-label`, `@media`, `role="math"`). Prose, inline styles,
 * the long CSS rule list and the body of the embedded script are left out.
 *
 * Markup is written as concatenations of short literals, each concatenation
 * standing for one piece of the source's template: the verifier compares
 * long string literals character by character, and short pieces keep the
 * proofs about the sections cheap.
 */
module Document {
  import opened Wrappers
  import opened Text
  import opened Registry
  import opened Classify
  import opened Extract
  import opened Analysis
  import opened Resources
  import opened Validator
  import Json

  // ------------------------------------------------------------------ head

  /** The KaTeX style sheet that a mathematics head links. */
  function KatexLink(): string {
    "<link " + "href=\"" + "https://" + "cdn." + "jsdelivr" + ".net" + "/npm/" + "katex" + "@0.16.0" + "/dist/" + "katex" + ".min.css" + "\">"
  }

  /** The OpenDyslexic font link of the head. */
  function DyslexiaLink(): string {
    "<link " + "href=\"" + "https://" + "fonts." + "googleapis" + ".com" + "/css2" + "?family=" + "Open" + "Dyslexic" + "\">"
  }

  function HeadMeta(): string {
    "<meta " + "charset=" + "\"UTF-8\">\n" + "<meta " + "name=" + "\"description" + "\" " + "content=\""
  }
  function KeywordsMeta(): string {
    "\">\n" + "<meta " + "name=" + "\"keywords\" " + "content=\""
  }
  function TitleOpen(): string {
    "\">\n<title>"
  }
  function ThemeMeta(): string {
    "</title>\n" + "<meta " + "name=" + "\"theme-" + "color\" " + "content=\""
  }
  function FontLinks(): string {
    "\">\n" + "<link " + "href=\"" + "https://" + "fonts." + "googleapis" + ".com" + "/css2" + "?family=" + "Inter" + "\">"
  }

  /**
   * The two optional links of the head, chosen by comparing `discipline`
   * with `'mathematics'` and with `'dyslexia-friendly'`.
   */
  function OptionalLinks(discipline: string): string {
    (if discipline == "mathematics" then KatexLink() else "") + "\n"
    + (if discipline == "dyslexia-friendly" then DyslexiaLink() else "")
  }

  /** The head template, given the value its link choice compares. */
  function HeadWith(discipline: string, a: DocumentAnalysis, p: Profile): string {
    Concat(HeadParts(discipline, a, p))
  }

  /**
   * The pieces of the head template, in order: the description, the
   * keywords (the vocabulary terms), the title, the theme colour, the font
   * links, the optional links and the style sheet.
   */
  function HeadParts(discipline: string, a: DocumentAnalysis, p: Profile): seq<string> {
    [HeadMeta(), Key(a.discipline), " - ", ContentTypeKey(a.contentType), " niveau ", LevelKey(a.level),
     KeywordsMeta(), VocabularyKeywords(a.specializedVocabulary), TitleOpen(),
     TitleOr(a.metadata, "Ressource Pédagogique"), " - ", p.name, ThemeMeta(), p.colors.primary, FontLinks(),
     OptionalLinks(discipline), "\n<style>\n", UniversalCss(p), "\n</style>\n"]
  }

  /** `generateHTMLHead`, with the link choice made on the analysis's discipline. */
  function Head(a: DocumentAnalysis, p: Profile): string {
    HeadWith(Key(a.discipline), a, p)
  }

  /** The result of evaluating a template that may throw. */
  datatype Outcome<T> = Returned(value: T) | Thrown(error: string)

  /** The error a read of an undeclared `discipline` raises. */
  function UndeclaredDiscipline(): string {
    "ReferenceError: " + "discipline is " + "not defined"
  }

  /**
   * `generateHTMLHead` as written: the link choice reads a variable
   * `discipline` that the method does not declare, so it is looked up among
   * the page's global bindings (`globals`), and evaluating the template
   * throws a `ReferenceError` when there is none.
   */
  function HeadAsWritten(globals: map<string, string>, a: DocumentAnalysis, p: Profile): Outcome<string> {
    if "discipline" in globals then Returned(HeadWith(globals["discipline"], a, p))
    else Thrown(UndeclaredDiscipline())
  }

  // ------------------------------------------------------------------- css

  function CssRoot(): string {
    ":root {\n" + "--primary-" + "discipline" + ": "
  }
  function CssSecondary(): string {
    ";\n" + "--secondary" + "-color: "
  }
  function CssAccent(): string {
    ";\n" + "--accent" + "-color: "
  }
  function CssFontMain(): string {
    ";\n" + "--font-" + "main: "
  }
  function CssRootEnd(): string {
    ";\n" + "--min-" + "touch-size" + ": 44px;" + "\n}\n"
  }

  /** The rule that enlarges every focusable element in motor-friendly mode. */
  function MotorFriendlyRule(): string {
    MotorSelectors() + TabindexMarker + MotorSizes()
  }
  function MotorSelectors(): string {
    ".motor-" + "friendly " + "button,\n" + ".motor-" + "friendly ["
  }
  function MotorSizes(): string {
    "] {\n" + "min-width" + ": var(" + "--min-" + "touch-size" + ");\n}\n"
  }

  /** The rule that stacks the layout on narrow screens. */
  function LayoutMediaRule(): string {
    MediaMarker + LayoutQuery()
  }
  function LayoutQuery(): string {
    " (max-" + "width: " + "768px)" + " {\n" + "main {\n" + "grid-" + "template-" + "columns" + ": 1fr;" + "\n}\n}\n"
  }

  /** The print rule that closes the style sheet. */
  function PrintRule(): string {
    "@media " + "print {\n" + ".access" + "ibility-" + "toolbar {\n" + "display: " + "none;" + "\n}\n}\n"
  }

  /** `disciplineConfig.fonts?.main || "'Inter', Arial, sans-serif"`. */
  function MainFont(f: Fonts): (r: string)
    ensures f.main != "" ==> r == f.main
    ensures f.main == "" ==> r == DefaultFont()
  {
    if f.main != "" then f.main else DefaultFont()
  }
  function DefaultFont(): string {
    "'Inter', Arial, " + "sans-serif"
  }

  /** `generateUniversalCSS`: the profile's colours and main font in the root variables, then the rules. */
  function UniversalCss(p: Profile): string {
    Concat(CssParts(p))
  }

  /** The pieces of the style sheet, in order. */
  function CssParts(p: Profile): seq<string> {
    [CssRoot(), p.colors.primary, CssSecondary(), p.colors.secondary, CssAccent(), p.colors.accent,
     CssFontMain(), MainFont(p.fonts), CssRootEnd(), MotorFriendlyRule(), LayoutMediaRule(), PrintRule()]
  }

  // ---------------------------------------------------------------- header

  function SkipLink(): string {
    "<a " + "href=\"#" + "main-" + "content\" " + "class=" + "\"skip-" + "link\">" + "</a>\n"
  }

  /** The opening tag of the accessibility toolbar. */
  function ToolbarOpen(): string {
    "<div " + RoleMarker + ToolbarLabel()
  }
  function ToolbarLabel(): string {
    "\"toolbar\" " + AriaLabelMarker + OptionsLabel()
  }
  function OptionsLabel(): string {
    "=\"Options\">\n"
  }

  /** One toolbar button, for the feature it switches. */
  function ToolbarButton(feature: string): string {
    "<button " + "data-" + "feature=\"" + feature + "\" " + AriaLabelMarker + "=\"" + feature + "\">" + "</button>\n"
  }

  /** The toolbar's feature buttons and its read-aloud button. */
  function ToolbarButtons(): string {
    ToolbarButton("high-contrast") + ToolbarButton("dark-mode") + ToolbarButton("large-text")
    + ToolbarButton("dyslexia-" + "friendly") + ToolbarButton("simplified-" + "interface")
    + "<button " + "onclick=" + "\"readPage" + "Content()" + "\">" + "</button>\n" + "</div>\n"
  }

  /** One navigation link. */
  function NavLink(anchor: string, caption: string): string {
    "<li><a href=\"#" + anchor + "\">" + caption + "</a></li>\n"
  }

  function NavBar(): string {
    "<nav " + AriaLabelMarker + "=\"Navigation\" " + RoleMarker + "\"navigation\">\n<ul>\n"
    + NavLink("objectives", "Objectifs") + NavLink("content", "Contenu")
    + NavLink("exercises", "Exercices") + NavLink("glossary", "Glossaire") + "</ul>\n</nav>\n"
  }

  /** The banner up to the badge's icon. */
  function BannerOpen(): string {
    "<header " + RoleMarker + "\"banner\">" + "\n<div " + "class=" + "\"discipline" + "-badge\">" + "<span>"
  }

  /** `generateHTMLHeader`: toolbar, then the banner with the badge, the title and the navigation. */
  function Header(a: DocumentAnalysis, p: Profile): string {
    Concat(HeaderParts(a, p))
  }

  /** The pieces of the header template, in order. */
  function HeaderParts(a: DocumentAnalysis, p: Profile): seq<string> {
    [SkipLink(), ToolbarOpen(), ToolbarButtons(), BannerOpen(), p.icon,
     "</span>\n<span>", p.name, " - ", LevelKey(a.level), "</span>\n</div>\n<h1>",
     TitleOr(a.metadata, "Ressource " + "Pédagogique " + "Accessible"), "</h1>\n", NavBar(), "</header>\n"]
  }

  // ------------------------------------------------------------------ main

  /** One objective line: the key with its first letter upper-cased, then the objective. */
  function ObjectiveItem(kind: string, objective: string): string {
    "<li><strong>" + Capitalize(kind) + " :</strong> " + objective + "</li>"
  }

  /** The objective lines in the record's key order. */
  function ObjectiveItems(o: Objectives): string {
    ObjectiveItem("cognitif", o.cognitif) + ObjectiveItem("méthodologique", o.methodologique)
    + ObjectiveItem("transversal", o.transversal)
  }

  /** The formula block of the mathematics template. */
  function FormulaBlock(): string {
    FormulaOpen() + MathRoleMarker + FormulaBody()
  }
  function FormulaOpen(): string {
    "<div " + "class=" + "\"formula\" "
  }
  function FormulaBody(): string {
    " " + AriaLabelMarker + "=\"Formule" + "\">" + "<svg>" + "f(x) = " + "ax² + " + "bx + c" + "</svg>" + "</div>\n"
  }

  function MathematicsContent(): string {
    TheoremOpen() + FormulaBlock() + "</div>\n"
  }
  function TheoremOpen(): string {
    "<div " + "class=" + "\"theorem" + "\">\n" + "<h3>" + "Théorème " + "Principal" + "</h3>\n"
  }
  function LiteratureContent(): string {
    "<blockquote>" + "<div class=" + "\"citation\">" + "</div>" + "</blockquote>\n"
  }
  function ScienceContent(): string {
    "<div class=" + "\"observation\">" + "</div>\n" + "<div class=" + "\"hypothesis\">" + "</div>\n"
  }
  function HistoryContent(): string {
    "<div class=" + "\"timeline\">" + "<ul></ul>" + "</div>\n"
  }
  function GeographyContent(): string {
    "<div class=" + "\"map-container\">" + "<svg " + RoleMarker + "\"img\" " + AriaLabelMarker + "=\"Carte\">" + "</svg></div>\n"
  }
  function LanguagesContent(): string {
    "<div class=" + "\"vocabulary-" + "section\">" + "<dl></dl>" + "</div>\n"
  }
  function ArtsContent(): string {
    "<div class=" + "\"artwork-" + "analysis\">" + "<div " + RoleMarker + "\"img\" " + AriaLabelMarker + "=\"Œuvre\">" + "</div></div>\n"
  }

  function FallbackContentOpen(): string {
    "<p>Contenu " + "pédagogique " + "adapté à la " + "discipline "
  }

  /** The fallback content template, for a discipline the table does not list. */
  function FallbackContent(key: string): string {
    FallbackContentOpen() + key + ".</p>\n"
  }

  /** `generateDisciplinaryContent`: seven templates and the fallback, which only `generic` reaches. */
  function DisciplinaryContent(d: Discipline): string {
    match d
    case Mathematics => MathematicsContent()
    case Literature => LiteratureContent()
    case Science => ScienceContent()
    case History => HistoryContent()
    case Geography => GeographyContent()
    case Languages => LanguagesContent()
    case Arts => ArtsContent()
    case Generic => FallbackContent(Key(d))
  }

  function GameAreaOpen(): string {
    "</h4>\n" + "<div " + RoleMarker + "\"application" + "\" " + AriaLabelMarker + "=\""
  }
  function GameButtonOpen(): string {
    "</p>\n" + "<button " + "onclick=" + "\"start" + "MiniGame('"
  }
  function GameAreaClose(): string {
    "')\">" + "</button>\n" + "</div>\n"
  }

  /**
   * `generateMiniGame`, given the game it draws from the discipline's
   * catalogue (the draw is made by the model, which holds the catalogues).
   */
  function MiniGameMarkup(game: MiniGame): string {
    Concat([
      "<h4>", game.name, GameAreaOpen(), game.name, "\">\n<p>", game.name,
      GameButtonOpen(), game.kind, GameAreaClose()])
  }

  function HintButton(): string {
    "<div " + "class=" + "\"help-" + "system\">" + "<button " + "onclick=" + "\"showHint" + "(1)\">" + "Indice" + "</button>"
  }
  function SolutionButtonOpen(): string {
    "<button " + "onclick=" + "\"show" + "Solution" + "(1)\">"
  }

  /** The hint and solution buttons of an exercise, with the solution button's label. */
  function HelpButtons(solution: string): string {
    HintButton() + SolutionButtonOpen() + solution + "</button>" + "</div></div>\n"
  }

  function ExerciseOpen(): string {
    "<div " + "class=" + "\"exercise" + "\">" + "<h4>" + "Exercice " + "1 : "
  }
  function MathematicsExercise(): string {
    ExerciseOpen() + "Résolution " + "d'équation</h4>" + "<div class=" + "\"formula\">" + "2x + 5 = 13" + "</div>\n"
  }
  function LiteratureExercise(): string {
    ExerciseOpen() + "Analyse de " + "texte</h4>" + "<blockquote>" + "</blockquote>\n"
  }
  function ScienceExercise(): string {
    ExerciseOpen() + "Observation " + "scientifique</h4>" + "<div class=" + "\"observation\">" + "</div>\n"
  }
  function FallbackExerciseOpen(): string {
    "<div class=" + "\"exercise\">" + "<h4>Exercice " + "d'application" + "</h4>\n" + "<p>Exercice " + "adapté à la " + "discipline "
  }

  /** `generateDisciplinaryExercises`: three templates and the fallback. */
  function DisciplinaryExercises(d: Discipline): string {
    match d
    case Mathematics => MathematicsExercise() + HelpButtons("Solution")
    case Literature => LiteratureExercise() + HelpButtons("Analyse " + "complète")
    case Science => ScienceExercise() + HelpButtons("Hypothèse " + "modèle")
    case _ => FallbackExerciseOpen() + Key(d) + ".</p>\n" + HelpButtons("Solution")
  }

  function ObjectivesOpen(): string {
    "<main " + RoleMarker + "\"main\" " + "id=\"main-" + "content\">" + "<section " + "id=" + "\"objectives" + "\">" + "<ul>\n"
  }
  function ContentOpen(): string {
    "</ul>" + "</section>\n" + "<section " + "id=" + "\"content\" " + "class=\""
  }
  function ContentHeading(): string {
    "-mode\">\n"
  }
  function BreakOpen(): string {
    "</section>\n" + "<div " + "class=" + "\"cognitive" + "-break\">" + "<p>"
  }
  function GameContainerOpen(): string {
    "</p>\n" + "<div " + "class=" + "\"mini-game" + "-container" + "\">\n"
  }
  function ExercisesOpen(): string {
    "</div>" + "</div>\n" + "<section " + "id=" + "\"exercises" + "\">\n"
  }

  /** `generateHTMLMain`: objectives, content, a cognitive break and the exercises. */
  function Main(a: DocumentAnalysis, p: Profile, game: MiniGame): string {
    Concat(MainParts(a, p, game))
  }

  /** The pieces of the main template, in order. */
  function MainParts(a: DocumentAnalysis, p: Profile, game: MiniGame): seq<string> {
    [ObjectivesOpen(), ObjectiveItems(a.pedagogicalObjectives), ContentOpen(), Key(a.discipline), ContentHeading(),
     DisciplinaryContent(a.discipline), BreakOpen(), p.name, GameContainerOpen(), MiniGameMarkup(game),
     ExercisesOpen(), DisciplinaryExercises(a.discipline), "</section>\n" + "</main>\n"]
  }

  // ----------------------------------------------------------------- aside

  /** The opening tag of the aside. */
  function AsideOpen(): string {
    "<aside " + RoleMarker + "\"complem" + "entary\" " + AriaLabelMarker + "=\"Outils" + "\">\n"
  }

  function ToolButtonOpen(): string {
    "<li><button " + "onclick=" + "\"openTool('"
  }

  /** One tool button, labelled with the tool's name capitalised. */
  function ToolItem(tool: string): string {
    ToolButtonOpen() + tool + "')\">" + Capitalize(tool) + "</button></li>\n"
  }

  function GlossaryTermOpen(): string {
    "<dt><span " + "data-definition=\""
  }
  function PronunciationOpen(): string {
    "</span><span>"
  }

  /** One glossary entry; its term is focusable. */
  function GlossaryItem(v: VocabularyEntry): string {
    GlossaryTermOpen() + v.definition + "\" " + TabindexMarker + "=\"0\">" + v.term
    + PronunciationOpen() + v.pronunciation + "</span></dt>" + "<dd>" + v.definition + "</dd>\n"
  }

  /** The glossary: the first five vocabulary entries. */
  function Glossary(v: seq<VocabularyEntry>): string {
    ConcatMap(Seqs.Take(v, 5), GlossaryItem)
  }

  /** One further-resources link. */
  function ResourceLink(kind: string): string {
    "<li><a onclick=" + "\"openResource('" + kind + "')\"></a></li>\n"
  }

  function ExtraResources(): string {
    "<div>\n<ul>\n" + ResourceLink("video") + ResourceLink("interactive") + ResourceLink("pdf") + "</ul>\n</div>\n"
  }

  function ToolsOpen(): string {
    "<div>\n<h3>Outils "
  }
  function ToolListOpen(): string {
    "</h3>\n<ul>\n"
  }
  function GlossaryOpen(): string {
    "</ul>\n</div>\n" + "<div id=" + "\"glossary\">\n<dl>\n"
  }

  /** The tool buttons of a profile, in order. */
  function ToolItems(tools: seq<string>): string {
    ConcatMap(tools, ToolItem)
  }

  /** `generateHTMLAside`: the discipline's tools, the glossary and further resources. */
  function Aside(a: DocumentAnalysis, p: Profile): string {
    Concat([
      AsideOpen(), ToolsOpen(), p.name, ToolListOpen(), ToolItems(p.tools), GlossaryOpen(),
      Glossary(a.specializedVocabulary), "</dl>\n</div>\n", ExtraResources(), "</aside>\n"])
  }

  // ---------------------------------------------------------------- footer

  /** One footer button, for the action it calls. */
  function FooterButton(action: string): string {
    "<button onclick=\"" + action + "()\">" + "</button>\n"
  }

  function FooterOpen(): string {
    "<footer " + RoleMarker + "\"content" + "info\">\n" + "<p>" + "Discipline" + ": "
  }

  /** `generateHTMLFooter`; `date` is `new Date().toLocaleDateString()`. */
  function Footer(a: DocumentAnalysis, date: string): string {
    Concat([FooterOpen(), Key(a.discipline), " | Niveau: ", LevelKey(a.level), " | Date: ", date, "</p>\n",
      FooterButton("exportToPDF"), FooterButton("printResource"), FooterButton("shareResource"), "</footer>\n"])
  }

  // --------------------------------------------------------------- scripts

  /** One member of the serialised feature map. */
  function FeatureJson(key: string, f: Feature): string {
    Json.Quote(key) + ":{\"name\":" + Json.Quote(f.name) + ",\"description\":" + Json.Quote(f.description)
    + ",\"cssClass\":" + Json.Quote(f.cssClass) + ",\"enabled\":" + (if f.enabled then "true" else "false") + "}"
  }

  /**
   * `JSON.stringify(this.accessibilityFeatures)`: the members in the map's
   * insertion order, which is the order of the feature table.
   */
  function FeaturesJson(features: map<string, Feature>): string {
    "{" + Join(FeatureMembers(features, FeatureOrder), ",") + "}"
  }

  /** The members for the keys of `order` that the map holds, in that order. */
  function FeatureMembers(features: map<string, Feature>, order: seq<string>): seq<string> {
    if order == [] then []
    else if order[0] in features then [FeatureJson(order[0], features[order[0]])] + FeatureMembers(features, order[1..])
    else FeatureMembers(features, order[1..])
  }

  function ScriptOpen(): string {
    "<script>\n" + "const assistant = " + "new Universal" + "Pedagogical" + "Assistant('"
  }
  function ScriptSpeech(): string {
    "');\n" + "const speech = " + "{ discipline: '"
  }
  function ScriptFeatures(): string {
    "' };\n" + "const accessibility" + "Features = "
  }
  function ScriptDialog(): string {
    ";\nconsole.log(" + "'Discipline:', '"
  }
  function ScriptLevel(): string {
    "');\nconsole.log(" + "'Niveau:', '"
  }
  function ScriptClose(): string {
    "');\n</script>\n"
  }

  /** `generateJavaScriptComponents`: the script, with the discipline, the level and the feature map written in. */
  function Scripts(a: DocumentAnalysis, features: map<string, Feature>): string {
    Concat([
      ScriptOpen(), Key(a.discipline), "', '", LevelKey(a.level), ScriptSpeech(), Key(a.discipline), ScriptFeatures(),
      FeaturesJson(features), ScriptDialog(), Key(a.discipline), ScriptLevel(), LevelKey(a.level), ScriptClose()])
  }

  // -------------------------------------------------------------- assembly

  /** The `htmlStructure` record. */
  datatype HtmlStructure = HtmlStructure(head: string, header: string, main: string, aside: string, footer: string, scripts: string)

  function PageOpen(): string {
    "<!DOCTYPE " + "html>\n" + "<html " + "lang=\"fr\">" + "\n<head>\n"
  }
  function BodyOpen(): string {
    "\n</head>\n" + "<body " + "class=" + "\"document-" + "container" + "\">\n"
  }

  /** `assembleFullHTML`. */
  function AssembleFullHtml(s: HtmlStructure): string {
    Concat(PageParts(s))
  }

  /** The pieces of the page, in order. */
  function PageParts(s: HtmlStructure): seq<string> {
    [PageOpen(), s.head, BodyOpen(), s.header, "\n", s.main, "\n", s.aside, "\n", s.footer,
     "\n", s.scripts, "\n</body>\n</html>"]
  }

  /**
   * The sections of the document for an analysis, its discipline's
   * configuration `p`, the drawn game and the model's feature map.
   */
  function Structure(a: DocumentAnalysis, p: Profile, game: MiniGame, features: map<string, Feature>, date: string): HtmlStructure {
    HtmlStructure(Head(a, p), Header(a, p), Main(a, p, game), Aside(a, p), Footer(a, date), Scripts(a, features))
  }

  /**
   * `generateAccessibleDocument(analysis, resources)`, given what it reads
   * from the model: the configuration `p` of the analysis's discipline, the
   * game drawn from its catalogue and the feature map. The resources are
   * accepted and not used by any section.
   */
  function GenerateAccessibleDocument(
    a: DocumentAnalysis, p: Profile, game: MiniGame, features: map<string, Feature>, date: string,
    resources: seq<SearchResult>): string
  {
    AssembleFullHtml(Structure(a, p, game, features, date))
  }

  /**
   * `generateAccessibleDocument` as written: the head is evaluated first, so
   * its `ReferenceError` rejects the whole call.
   */
  function GenerateAccessibleDocumentAsWritten(
    globals: map<string, string>, a: DocumentAnalysis, p: Profile, game: MiniGame, features: map<string, Feature>,
    date: string, resources: seq<SearchResult>): Outcome<string>
  {
    match HeadAsWritten(globals, a, p)
    case Thrown(e) => Thrown(e)
    case Returned(head) =>
      Returned(AssembleFullHtml(HtmlStructure(head, Header(a, p), Main(a, p, game), Aside(a, p), Footer(a, date), Scripts(a, features))))
  }
}
