/**
 * The PDF export configuration, `generatePDFExportConfig(analysis)`: fixed
 * accessibility and interactivity options, the feature bag of the
 * analysis's discipline, and metadata taken from the analysis.
 *
 * Keys and values are written as concatenations of short literals, so
 * `"formula" + "Rendering"` is the key `formulaRendering`: the verifier
 * compares long string literals character by character, and short pieces
 * keep the proofs about the bags cheap.
 */
module PdfExport {
  import opened Wrappers
  import opened Text
  import opened Registry
  import opened Extract
  import opened Analysis

  /** A value of a feature bag: a flag or a named setting. */
  datatype Setting = Flag(on: bool) | Named(value: string)

  /** An object literal of settings: its keys in writing order, each with its value. */
  type Bag = seq<(string, Setting)>

  /** The `accessibility` options. */
  datatype AccessibilityOptions = AccessibilityOptions(
    tagged: bool, structuralElements: bool, alternativeText: bool, readingOrder: bool,
    languageSpecification: string)

  /** The `interactivity` options. */
  datatype InteractivityOptions = InteractivityOptions(
    preserveLinks: bool, bookmarks: bool, forms: bool, multimedia: string, navigation: string)

  /** The `metadata` of the PDF; `title` is absent when the analysis's metadata has none. */
  datatype PdfMetadata = PdfMetadata(
    title: Option<string>, subject: string, keywords: string, creator: string, producer: string)

  /** The configuration record. */
  datatype PdfExportConfig = PdfExportConfig(
    accessibility: AccessibilityOptions,
    interactivity: InteractivityOptions,
    disciplinaryFeatures: Bag,
    metadata: PdfMetadata)

  function MathematicsPdfFeatures(): (b: Bag)
    ensures |b| == 4
  {
    [("formula" + "Rendering", Named("high" + "-quality" + "-vector")), ("graphics" + "Preservation", Flag(true)),
     ("calculator" + "Embedding", Named("qr-code" + "-link")), ("theorem" + "Boxes", Named("bordered" + "-highlighting"))]
  }
  function LiteraturePdfFeatures(): (b: Bag)
    ensures |b| == 4
  {
    [("typography" + "Preservation", Flag(true)), ("annotation" + "Support", Flag(true)),
     ("citation" + "Formatting", Named("academic" + "-standard")), ("glossary" + "Links", Named("internal" + "-navigation"))]
  }
  function SciencePdfFeatures(): (b: Bag)
    ensures |b| == 4
  {
    [("diagram" + "Quality", Named("publication" + "-ready")), ("data" + "Table" + "Formatting", Flag(true)),
     ("experimental" + "Protocols", Named("step-by" + "-step")), ("formula" + "Rendering", Named("scientific" + "-notation"))]
  }
  function HistoryPdfFeatures(): (b: Bag)
    ensures |b| == 4
  {
    [("timeline" + "Preservation", Flag(true)), ("mapQuality", Named("high" + "-resolution")),
     ("date" + "Formatting", Named("consistent" + "-style")), ("source" + "References", Named("footnote" + "-style"))]
  }
  function GeographyPdfFeatures(): (b: Bag)
    ensures |b| == 4
  {
    [("map" + "Resolution", Named("cartographic" + "-quality")), ("coordinate" + "System" + "Preservation", Flag(true)),
     ("scale" + "Indication", Flag(true)), ("layered" + "Information", Named("toggleable" + "-visibility"))]
  }
  function LanguagesPdfFeatures(): (b: Bag)
    ensures |b| == 4
  {
    [("phonetic" + "Symbol" + "Support", Flag(true)), ("multilingual" + "Text", Named("unicode" + "-compliant")),
     ("pronunciation" + "Guides", Named("ipa" + "-standard")), ("cultural" + "Context" + "Images", Named("high" + "-quality"))]
  }
  function ArtsPdfFeatures(): (b: Bag)
    ensures |b| == 4
  {
    [("color" + "Reproduction", Named("artist" + "-grade")), ("image" + "Resolution", Named("museum" + "-quality")),
     ("style" + "Analysis" + "Layout", Named("academic" + "-format")), ("comparison" + "Views", Named("side-by" + "-side"))]
  }

  /** The bag for a discipline the table does not list. */
  function StandardPdfFeatures(): (b: Bag)
    ensures |b| == 3
  {
    [("standard" + "Formatting", Flag(true)), ("accessibility" + "Compliance", Named("wcag-aa")),
     ("print" + "Optimization", Flag(true))]
  }

  /**
   * `getDisciplinaryPDFFeatures(discipline)`: the table lists the seven
   * disciplines, so `generic` gets the standard bag.
   */
  function DisciplinaryPdfFeatures(d: Discipline): (b: Bag)
    ensures |b| == if d == Generic then 3 else 4
    ensures b == StandardPdfFeatures() <==> d == Generic
  {
    match d
    case Mathematics => MathematicsPdfFeatures()
    case Literature => LiteraturePdfFeatures()
    case Science => SciencePdfFeatures()
    case History => HistoryPdfFeatures()
    case Geography => GeographyPdfFeatures()
    case Languages => LanguagesPdfFeatures()
    case Arts => ArtsPdfFeatures()
    case Generic => StandardPdfFeatures()
  }

  /** `generatePDFExportConfig(analysis)`. */
  function GeneratePdfExportConfig(a: DocumentAnalysis): PdfExportConfig {
    PdfExportConfig(
      AccessibilityOptions(true, true, true, true, "fr-FR"),
      InteractivityOptions(true, true, true, "placeholder-with-description", "linear-and-structured"),
      DisciplinaryPdfFeatures(a.discipline),
      PdfMetadata(
        a.metadata.title, Key(a.discipline), VocabularyKeywords(a.specializedVocabulary),
        "EduLearning+ Universal " + "Pedagogy AI", "Universal Accessible " + "Education System"))
  }

  /**
   * The configuration is tagged for PDF/UA in French; its subject names the
   * discipline (reading it back gives the discipline); its title is the
   * metadata title as given, absent when absent; every vocabulary term is
   * among its keywords; and its feature bag is the discipline's.
   */
  lemma PdfExportConfigSpec(a: DocumentAnalysis)
    ensures var c := GeneratePdfExportConfig(a);
      && c.accessibility.tagged && c.accessibility.languageSpecification == "fr-FR"
      && FromKey(c.metadata.subject) == a.discipline
      && c.metadata.title == a.metadata.title
      && (forall i | 0 <= i < |a.specializedVocabulary| ::
            Contains(c.metadata.keywords, a.specializedVocabulary[i].term))
      && c.disciplinaryFeatures == DisciplinaryPdfFeatures(a.discipline)
  {
    KeyRoundTrip(a.discipline);
    var v := a.specializedVocabulary;
    forall i | 0 <= i < |v| ensures Contains(VocabularyKeywords(v), v[i].term) {
      JoinContains(Terms(v), ", ", i);
    }
  }
}
