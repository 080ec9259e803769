/**
 * The analysis step, `analyzeDocument`: one record holding every classifier
 * and extractor applied to a document. `toLowerCase` is taken as given
 * (`lower`), and so is the clock reading that stamps the record (`now`).
 */
module Analysis {
  import opened Wrappers
  import opened Seqs
  import opened Text
  import opened Registry
  import opened Classify
  import opened Tokens
  import opened Extract

  /** The `metadata` argument as the controller fills it; every field may be absent. */
  datatype Metadata = Metadata(
    fileName: Option<string>,
    fileType: Option<string>,
    fileSize: Option<nat>,
    title: Option<string>)

  /** `metadata.title || fallback`: an absent or empty title gives the fallback. */
  function TitleOr(m: Metadata, fallback: string): (r: string)
    ensures m.title.Some? && m.title.value != "" ==> r == m.title.value
    ensures (m.title.None? || m.title.value == "") ==> r == fallback
  {
    match m.title
    case Some(t) => if t != "" then t else fallback
    case None => fallback
  }

  /** The `analysis` record. */
  datatype DocumentAnalysis = DocumentAnalysis(
    timestamp: int,
    originalContent: string,
    metadata: Metadata,
    discipline: Discipline,
    level: Level,
    contentType: ContentType,
    pedagogicalObjectives: Objectives,
    visualElements: seq<string>,
    resourcesNeeded: seq<ResourceNeed>,
    specializedVocabulary: seq<VocabularyEntry>,
    exercises: seq<string>,
    transversalSkills: seq<string>)

  /**
   * What `analyzeDocument(content, metadata)` computes: the classifiers read
   * the lower-cased content, the frequency keywords its `\w{4,}` tokens, the
   * vocabulary the capitalised words of the content as written. Every
   * extractor after the discipline detector is given the detected discipline.
   */
  function Analyze(lower: string -> string, now: int, content: string, metadata: Metadata): DocumentAnalysis {
    var t := lower(content);
    var d := DetectedDiscipline(t);
    DocumentAnalysis(
      now, content, metadata, d,
      DetectedLevel(t, content),
      DetectContentType(t),
      PedagogicalObjectives(d),
      VisualElementsFor(t, d),
      ResourcesNeeded(d, LongWords(t)),
      SpecializedVocabulary(lower, CapitalizedWords(content), d),
      IdentifyExercises(t, d),
      TransversalSkills(t))
  }

  /** The vocabulary terms of an analysis, in order. */
  function Terms(v: seq<VocabularyEntry>): (r: seq<string>)
    ensures |r| == |v| && forall i | 0 <= i < |v| :: r[i] == v[i].term
  {
    seq(|v|, i requires 0 <= i < |v| => v[i].term)
  }

  /** `specializedVocabulary.map(v => v.term).join(', ')`: the keywords of the head and of the PDF metadata. */
  function VocabularyKeywords(v: seq<VocabularyEntry>): string {
    Join(Terms(v), ", ")
  }

  /**
   * The classifications: the discipline is `generic` exactly when no
   * discipline keyword occurs, the level falls back to the complexity score
   * (which never gives `professionnel`) only when no indicator occurs, and the
   * objectives are the generic ones exactly for the disciplines the
   * objectives table does not list.
   */
  lemma AnalyzeClassifies(lower: string -> string, now: int, content: string, metadata: Metadata)
    ensures var a := Analyze(lower, now, content, metadata);
      var t := lower(content);
      && a.timestamp == now && a.originalContent == content && a.metadata == metadata
      && (a.discipline == Generic <==>
            forall k | 0 <= k < |ScoredDisciplines| :: Score(t, ScoredDisciplines[k]) == 0)
      && ((forall j | 0 <= j < |LevelOrder| :: !Indicated(t, LevelOrder[j])) ==>
            a.level == LevelForScore(ComplexityScore(content)) && a.level != Professionnel)
      && (a.pedagogicalObjectives == GenericObjectives <==> a.discipline !in {Mathematics, Literature, Science})
  {
    var t := lower(content);
    DetectedDisciplineSpec(t);
    DetectedLevelSpec(t, content);
  }

  /**
   * The selections: visual elements, exercise cues and skills are
   * order-preserving selections from their tables, and there are two
   * resource needs, the first searching for the discipline key first.
   */
  lemma AnalyzeSelects(lower: string -> string, now: int, content: string, metadata: Metadata)
    ensures var a := Analyze(lower, now, content, metadata);
      && IsSubseq(a.visualElements, DisciplineVisuals(a.discipline))
      && IsSubseq(a.exercises, ExercisePatterns(a.discipline))
      && IsSubseq(a.transversalSkills, SkillNames)
      && |a.resourcesNeeded| == 2
      && a.resourcesNeeded[0].keywords[0] == Key(a.discipline)
  {
    var t := lower(content);
    ResourcesNeededSpec(DetectedDiscipline(t), LongWords(t));
  }

  /**
   * The vocabulary: at most ten distinct terms, each a capitalised word of
   * the content as written, longer than four characters.
   */
  lemma AnalyzeVocabulary(lower: string -> string, now: int, content: string, metadata: Metadata)
    ensures var v := Analyze(lower, now, content, metadata).specializedVocabulary;
      && |v| <= 10
      && Distinct(Terms(v))
      && (forall i | 0 <= i < |v| :: IsCapitalized(v[i].term) && |v[i].term| > 4)
  {
    VocabularyOf(lower, content, DetectedDiscipline(lower(content)));
  }

  /** `AnalyzeVocabulary` for any discipline. */
  lemma VocabularyOf(lower: string -> string, content: string, d: Discipline)
    ensures var v := SpecializedVocabulary(lower, CapitalizedWords(content), d);
      && |v| <= 10
      && Distinct(Terms(v))
      && (forall i | 0 <= i < |v| :: IsCapitalized(v[i].term) && |v[i].term| > 4)
  {
    var words := CapitalizedWords(content);
    VocabularyTermsSpec(words);
    SpecializedVocabularySpec(lower, words, d);
    var v := SpecializedVocabulary(lower, words, d);
    assert Terms(v) == VocabularyTerms(words);
    forall i | 0 <= i < |v| ensures IsCapitalized(v[i].term) {
      assert v[i].term in words;
    }
  }
}
