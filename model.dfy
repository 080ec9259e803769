/**
 * The model object, `UniversalPedagogyModel`: the tables its constructor
 * builds, the accessibility-feature map the interface switches, and the
 * last analysis. The clock reading, `toLowerCase` and the random draw of a
 * mini-game are given to the methods that use them.
 */
module Model {
  import opened Wrappers
  import opened Registry
  import opened DisciplineSets
  import opened Classify
  import opened Extract
  import opened Tokens
  import opened Analysis
  import opened Resources
  import Document

  /** `initializeDisciplines()`: the profile of every discipline. */
  function ProfileTable(): map<Discipline, Profile> {
    Tabulate(ProfileOf)
  }

  /** `initializeCognitiveBreaks()`: the catalogue of every discipline. */
  function BreakTable(): map<Discipline, seq<MiniGame>> {
    Tabulate(CognitiveBreaks)
  }

  /** The ids of the features switched on. */
  function ActiveFeatures(m: map<string, Feature>): (s: set<string>)
    ensures forall k :: k in s <==> k in m && m[k].enabled
  {
    set k | k in m && m[k].enabled
  }

  /** `Object.values(features).filter(feature => feature.enabled).length`. */
  function ActiveCount(m: map<string, Feature>): nat {
    |ActiveFeatures(m)|
  }

  /** Every feature of the initial table is off. */
  lemma InitiallyInactive()
    ensures ActiveCount(InitialFeatures()) == 0
  {
    assert ActiveFeatures(InitialFeatures()) == {};
  }

  /** The record `getUsageStatistics()` returns; the last two fields are fixed figures. */
  datatype UsageStatistics = UsageStatistics(
    documentsAnalyzed: nat,
    disciplinesSupported: nat,
    accessibilityFeaturesActive: nat,
    averageAccessibilityScore: nat,
    userSatisfactionRate: nat)

  class PedagogyModel {
    /** `this.disciplines`, fixed by the constructor. */
    const disciplines: map<Discipline, Profile> := ProfileTable()
    /** `this.cognitiveBreaks`, fixed by the constructor. */
    const cognitiveBreaks: map<Discipline, seq<MiniGame>> := BreakTable()
    /** `this.accessibilityFeatures`, which the controller switches in place. */
    var accessibilityFeatures: map<string, Feature>
    /** `this.currentAnalysis`. */
    var currentAnalysis: Option<DocumentAnalysis>
    /** The `documentsAnalyzed` entry of the inherited data store, if set; nothing in this class sets it. */
    var storedDocumentsAnalyzed: Option<nat>

    /** `new UniversalPedagogyModel()`, with an empty data store. */
    constructor ()
      ensures accessibilityFeatures == InitialFeatures()
      ensures currentAnalysis == None && storedDocumentsAnalyzed == None
    {
      accessibilityFeatures := InitialFeatures();
      currentAnalysis := None;
      storedDocumentsAnalyzed := None;
    }

    /**
     * `analyzeDocument(documentContent, metadata)`: the record filled field
     * by field, then kept as the current analysis.
     */
    method AnalyzeDocument(lower: string -> string, now: int, content: string, metadata: Metadata)
      returns (analysis: DocumentAnalysis)
      modifies this`currentAnalysis
      ensures analysis == Analyze(lower, now, content, metadata)
      ensures currentAnalysis == Some(analysis)
    {
      var t := lower(content);
      var discipline := DetectDiscipline(t);
      var level := DetectLevel(t, content);
      var contentType := DetectContentType(t);
      var objectives := PedagogicalObjectives(discipline);
      var visuals := IdentifyVisualElements(t, discipline);
      var keywords := GenerateSearchKeywords(Key(discipline), LongWords(t));
      var needs := NeedsFor(discipline, keywords);
      var vocabulary := SpecializedVocabulary(lower, CapitalizedWords(content), discipline);
      var exercises := IdentifyExercises(t, discipline);
      var skills := IdentifyTransversalSkills(t);
      analysis := DocumentAnalysis(
        now, content, metadata, discipline, level, contentType, objectives, visuals, needs, vocabulary,
        exercises, skills);
      currentAnalysis := Some(analysis);
    }

    /**
     * `generateAccessibleDocument(analysis, resources)`: the discipline's
     * configuration and catalogue are its entries `ProfileOf(d)` and
     * `CognitiveBreaks(d)` in the two tables (every discipline has both, so
     * the `generic` fallback of the catalogue lookup is never taken), and
     * `pick` is the draw `Math.floor(Math.random() * games.length)`.
     */
    method GenerateAccessibleDocument(analysis: DocumentAnalysis, pick: nat, date: string, resources: seq<SearchResult>)
      returns (html: string)
      requires pick < |CognitiveBreaks(analysis.discipline)|
      ensures html == Document.GenerateAccessibleDocument(
        analysis, ProfileOf(analysis.discipline), CognitiveBreaks(analysis.discipline)[pick],
        accessibilityFeatures, date, resources)
    {
      var config := ProfileOf(analysis.discipline);
      var games := CognitiveBreaks(analysis.discipline);
      html := Document.GenerateAccessibleDocument(analysis, config, games[pick], accessibilityFeatures, date, resources);
    }

    /** `getUsageStatistics()`. */
    method GetUsageStatistics() returns (stats: UsageStatistics)
      ensures stats.documentsAnalyzed == storedDocumentsAnalyzed.GetOr(0)
      ensures stats.disciplinesSupported == 8
      ensures stats.accessibilityFeaturesActive == ActiveCount(accessibilityFeatures)
      ensures stats.averageAccessibilityScore == 95 && stats.userSatisfactionRate == 98
    {
      DisciplineSetSize();
      stats := UsageStatistics(
        storedDocumentsAnalyzed.GetOr(0), |disciplines|, ActiveCount(accessibilityFeatures), 95, 98);
    }
  }
}
