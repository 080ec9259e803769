/**
 * The discipline registry: the static tables the model object builds in its
 * constructor. Discipline profiles, accessibility-feature descriptors and the
 * cognitive-break (mini-game) catalogues. Disciplines are a closed datatype,
 * so every keyed table is a total function and no lookup can miss.
 */
module Registry {
  import opened Wrappers
  import Seqs

  /** The keys of the profile table, `generic` included. */
  datatype Discipline =
    | Mathematics | Literature | Science | History | Geography | Languages | Arts | Generic

  /** The discipline's key string as the source writes it. */
  function Key(d: Discipline): string {
    match d
    case Mathematics => "mathematics"
    case Literature => "literature"
    case Science => "science"
    case History => "history"
    case Geography => "geography"
    case Languages => "languages"
    case Arts => "arts"
    case Generic => "generic"
  }

  /** All disciplines, in the order of the profile table. */
  const AllDisciplines: seq<Discipline> :=
    [Mathematics, Literature, Science, History, Geography, Languages, Arts, Generic]

  /** Reading a key string back; a string that is no key reads as `Generic`. */
  function FromKey(k: string): (d: Discipline)
    ensures k == Key(d) || (d == Generic && forall e | e in AllDisciplines :: Key(e) != k)
  {
    if k == "mathematics" then Mathematics
    else if k == "literature" then Literature
    else if k == "science" then Science
    else if k == "history" then History
    else if k == "geography" then Geography
    else if k == "languages" then Languages
    else if k == "arts" then Arts
    else Generic
  }

  /** Keys are distinct, so reading a key back gives the discipline. */
  lemma KeyRoundTrip(d: Discipline)
    ensures FromKey(Key(d)) == d
  {
  }

  /** The table lists every discipline once. */
  lemma AllDisciplinesComplete(d: Discipline)
    ensures d in AllDisciplines && |AllDisciplines| == 8 && Seqs.Distinct(AllDisciplines)
  {
  }

  /** `colors` of a profile. */
  datatype Palette = Palette(primary: string, secondary: string, accent: string)

  /** `fonts` of a profile: the main family and at most one special-purpose family. */
  datatype Fonts = Fonts(main: string, special: Option<(string, string)>)

  /** One entry of `initializeDisciplines`. */
  datatype Profile = Profile(
    name: string,
    icon: string,
    colors: Palette,
    fonts: Fonts,
    tools: seq<string>,
    visualElements: seq<string>,
    cognitiveEmphasis: string)

  /*
   * The profile table of `initializeDisciplines`, read column by column: one
   * function per field, each total over the disciplines.
   */

  /** `name`: the display name. */
  function DisciplineName(d: Discipline): string {
    match d
    case Mathematics => "Mathématiques"
    case Literature => "Littérature"
    case Science => "Sciences"
    case History => "Histoire"
    case Geography => "Géographie"
    case Languages => "Langues"
    case Arts => "Arts"
    case Generic => "Multidisciplinaire"
  }

  /** `icon`. */
  function DisciplineIcon(d: Discipline): string {
    match d
    case Mathematics => "🔢"
    case Literature => "📚"
    case Science => "🔬"
    case History => "🏛️"
    case Geography => "🌍"
    case Languages => "🗣️"
    case Arts => "🎨"
    case Generic => "🎯"
  }

  /** `colors`. */
  function DisciplineColors(d: Discipline): Palette {
    match d
    case Mathematics => Palette("#2E86AB", "#A23B72", "#F18F01")
    case Literature => Palette("#6A4C93", "#8B5A2B", "#C06C84")
    case Science => Palette("#16537e", "#2E8B57", "#FF6B35")
    case History => Palette("#8B4513", "#DAA520", "#CD853F")
    case Geography => Palette("#228B22", "#4682B4", "#FF8C00")
    case Languages => Palette("#9932CC", "#FF69B4", "#00CED1")
    case Arts => Palette("#DC143C", "#FFD700", "#8A2BE2")
    case Generic => Palette("#667eea", "#764ba2", "#28a745")
  }

  /** `fonts`. */
  function DisciplineFonts(d: Discipline): Fonts {
    match d
    case Mathematics => Fonts("KaTeX_Math, Computer Modern, serif", Some(("formulas", "Latin Modern Math, Times New Roman, serif")))
    case Literature => Fonts("Crimson Text, Georgia, serif", Some(("quotes", "Playfair Display, serif")))
    case Science => Fonts("Source Sans Pro, Arial, sans-serif", Some(("technical", "Fira Code, monospace")))
    case History => Fonts("Merriweather, Times New Roman, serif", Some(("dates", "Roboto Mono, monospace")))
    case Geography => Fonts("Open Sans, Arial, sans-serif", Some(("coordinates", "Courier New, monospace")))
    case Languages => Fonts("Noto Sans, Arial, sans-serif", Some(("phonetic", "Doulos SIL, Times New Roman, serif")))
    case Arts => Fonts("Lato, Arial, sans-serif", Some(("artistic", "Dancing Script, cursive")))
    case Generic => Fonts("Inter, Arial, sans-serif", None)
  }

  /** `tools`: four tools per discipline. */
  function DisciplineTools(d: Discipline): (r: seq<string>)
    ensures |r| == 4
  {
    match d
    case Mathematics => ["calculatrice", "grapheur", "formulaire", "géogébra"]
    case Literature => ["dictionnaire", "biographies", "contexte-historique", "analyse-stylistique"]
    case Science => ["simulateur", "tableau-périodique", "convertisseur", "calculateur-scientifique"]
    case History => ["chronologie", "cartes-historiques", "documents-époque", "biographies"]
    case Geography => ["cartes-interactives", "atlas", "météo", "coordonnées-gps"]
    case Languages => ["dictionnaire-phonétique", "conjugueur", "traducteur", "prononciation"]
    case Arts => ["palette-couleurs", "techniques", "histoire-art", "galeries"]
    case Generic => ["recherche", "synthèse", "mindmapping", "présentation"]
  }

  /** `visualElements`: four elements per discipline. */
  function DisciplineVisuals(d: Discipline): (r: seq<string>)
    ensures |r| == 4
  {
    match d
    case Mathematics => ["graphiques", "schémas", "formules", "diagrammes"]
    case Literature => ["portraits", "manuscrits", "contextes-historiques", "cartes-littéraires"]
    case Science => ["schémas", "diagrammes", "photos-microscope", "graphiques-données"]
    case History => ["cartes", "photos-époque", "documents", "chronologies"]
    case Geography => ["cartes", "photos-satellites", "graphiques-climatiques", "relief-3d"]
    case Languages => ["cartes-linguistiques", "symboles-phonétiques", "cultures", "drapeaux"]
    case Arts => ["œuvres", "techniques", "courants-artistiques", "portfolios"]
    case Generic => ["diagrammes", "infographies", "présentations", "synthèses"]
  }

  /** `cognitiveEmphasis`. */
  function CognitiveEmphasis(d: Discipline): string {
    match d
    case Mathematics => "logical-reasoning"
    case Literature => "creative-expression"
    case Science => "analytical-thinking"
    case History => "chronological-understanding"
    case Geography => "spatial-reasoning"
    case Languages => "communication-skills"
    case Arts => "creative-expression"
    case Generic => "cross-disciplinary"
  }

  /** `this.disciplines[d]`: the profile assembled from its columns. */
  function ProfileOf(d: Discipline): (p: Profile)
    ensures p.name == DisciplineName(d) && p.visualElements == DisciplineVisuals(d)
    ensures |p.tools| == 4 && |p.visualElements| == 4
  {
    Profile(DisciplineName(d), DisciplineIcon(d), DisciplineColors(d), DisciplineFonts(d),
      DisciplineTools(d), DisciplineVisuals(d), CognitiveEmphasis(d))
  }

  /** One entry of `initializeAccessibilityFeatures`; `enabled` is the flag the UI toggles. */
  datatype Feature = Feature(name: string, description: string, cssClass: string, enabled: bool)

  /** The feature ids in insertion order. */
  const FeatureOrder: seq<string> := [
    "high-contrast", "dark-mode", "dyslexia-friendly", "large-text",
    "simplified-interface", "colorblind-friendly", "screen-reader", "motor-impairment"]

  /** The feature descriptors, in the order of the table. */
  const HighContrastFeature: Feature :=
    Feature("Contraste élevé", "Contraste WCAG AAA pour tous", "high-contrast", false)
  const DarkModeFeature: Feature :=
    Feature("Mode sombre", "Interface sombre pour réduire la fatigue oculaire", "dark-mode", false)
  const DyslexiaFriendlyFeature: Feature :=
    Feature("Adapté dyslexie", "Police OpenDyslexic et espacement adapté", "dyslexia-friendly", false)
  const LargeTextFeature: Feature :=
    Feature("Texte agrandi", "Taille de texte augmentée", "large-text", false)
  const SimplifiedInterfaceFeature: Feature :=
    Feature("Interface simplifiée", "Réduction des éléments de distraction", "simplified-interface", false)
  const ColorblindFriendlyFeature: Feature :=
    Feature("Daltonisme", "Palette accessible aux daltoniens", "colorblind-friendly", false)
  const ScreenReaderFeature: Feature :=
    Feature("Lecteur d'écran", "Optimisé pour NVDA, JAWS, VoiceOver", "screen-reader-optimized", false)
  const MotorImpairmentFeature: Feature :=
    Feature("Difficultés motrices", "Navigation 100% clavier, boutons agrandis", "motor-friendly", false)

  /** `initializeAccessibilityFeatures()`: eight descriptors, all disabled. */
  function InitialFeatures(): (m: map<string, Feature>)
    ensures forall k :: k in m <==> k in FeatureOrder
    ensures forall k | k in m :: !m[k].enabled
  {
    map[
      "high-contrast" := HighContrastFeature,
      "dark-mode" := DarkModeFeature,
      "dyslexia-friendly" := DyslexiaFriendlyFeature,
      "large-text" := LargeTextFeature,
      "simplified-interface" := SimplifiedInterfaceFeature,
      "colorblind-friendly" := ColorblindFriendlyFeature,
      "screen-reader" := ScreenReaderFeature,
      "motor-impairment" := MotorImpairmentFeature
    ]
  }

  /**
   * One entry of a cognitive-break catalogue: its `type`, its display name and
   * its one discipline-specific setting (key and value).
   */
  datatype MiniGame = MiniGame(kind: string, name: string, setting: (string, string))

  /** The cognitive-break catalogues, one per discipline. */
  function MathematicsBreaks(): (games: seq<MiniGame>)
    ensures |games| == 4
  {
    [
      MiniGame("mental-calculation", "Calcul mental", ("difficulty", "adaptive")),
      MiniGame("pattern-recognition", "Reconnaissance de motifs", ("content", "sequences")),
      MiniGame("logic-puzzle", "Puzzle logique", ("elements", "mathematical-concepts")),
      MiniGame("geometry-puzzle", "Puzzle géométrique", ("shapes", "course-related"))]
  }

  function LiteratureBreaks(): (games: seq<MiniGame>)
    ensures |games| == 4
  {
    [
      MiniGame("word-association", "Association de mots", ("vocabulary", "literary-terms")),
      MiniGame("story-building", "Construction narrative", ("elements", "narrative-techniques")),
      MiniGame("poetry-rhythm", "Rythme poétique", ("meter", "course-examples")),
      MiniGame("character-matching", "Correspondance personnages", ("works", "studied-authors"))]
  }

  function ScienceBreaks(): (games: seq<MiniGame>)
    ensures |games| == 4
  {
    [
      MiniGame("element-matching", "Correspondance éléments", ("table", "periodic")),
      MiniGame("process-ordering", "Ordre des processus", ("steps", "scientific-method")),
      MiniGame("hypothesis-testing", "Test d'hypothèses", ("scenarios", "course-related")),
      MiniGame("lab-simulation", "Simulation labo", ("experiments", "virtual"))]
  }

  function HistoryBreaks(): (games: seq<MiniGame>)
    ensures |games| == 4
  {
    [
      MiniGame("timeline-builder", "Construction chronologie", ("events", "historical-periods")),
      MiniGame("cause-effect", "Cause à effet", ("relationships", "historical-events")),
      MiniGame("historical-figures", "Personnages historiques", ("matching", "periods-actions")),
      MiniGame("map-exploration", "Exploration cartes", ("territories", "historical-changes"))]
  }

  function GeographyBreaks(): (games: seq<MiniGame>)
    ensures |games| == 4
  {
    [
      MiniGame("map-puzzle", "Puzzle cartographique", ("regions", "world-continents")),
      MiniGame("climate-matching", "Correspondance climats", ("zones", "geographical-features")),
      MiniGame("capital-cities", "Capitales", ("countries", "world-regions")),
      MiniGame("relief-identification", "Identification relief", ("features", "topographical"))]
  }

  function LanguagesBreaks(): (games: seq<MiniGame>)
    ensures |games| == 4
  {
    [
      MiniGame("vocabulary-cards", "Cartes vocabulaire", ("words", "lesson-specific")),
      MiniGame("pronunciation-game", "Jeu prononciation", ("sounds", "phonetic-focus")),
      MiniGame("grammar-puzzle", "Puzzle grammaire", ("rules", "lesson-grammar")),
      MiniGame("cultural-matching", "Correspondance culturelle", ("elements", "target-culture"))]
  }

  function ArtsBreaks(): (games: seq<MiniGame>)
    ensures |games| == 4
  {
    [
      MiniGame("color-harmony", "Harmonie couleurs", ("palettes", "artistic-movements")),
      MiniGame("style-recognition", "Reconnaissance styles", ("artworks", "famous-painters")),
      MiniGame("technique-matching", "Correspondance techniques", ("methods", "artistic-processes")),
      MiniGame("composition-analysis", "Analyse composition", ("elements", "visual-principles"))]
  }

  function GenericBreaks(): (games: seq<MiniGame>)
    ensures |games| == 4
  {
    [
      MiniGame("memory-cards", "Cartes mémoire", ("content", "key-concepts")),
      MiniGame("concept-mapping", "Carte conceptuelle", ("relations", "course-connections")),
      MiniGame("quiz-adaptive", "Quiz adaptatif", ("questions", "generated-from-content")),
      MiniGame("brainstorming", "Brainstorming", ("topics", "lesson-themes"))]
  }

  /** `this.cognitiveBreaks[d]`: every catalogue holds four games. */
  function CognitiveBreaks(d: Discipline): (games: seq<MiniGame>)
    ensures |games| == 4
  {
    match d
    case Mathematics => MathematicsBreaks()
    case Literature => LiteratureBreaks()
    case Science => ScienceBreaks()
    case History => HistoryBreaks()
    case Geography => GeographyBreaks()
    case Languages => LanguagesBreaks()
    case Arts => ArtsBreaks()
    case Generic => GenericBreaks()
  }
}
