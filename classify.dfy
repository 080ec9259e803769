/**
 * The three classifiers of the analysis step: the discipline (keyword
 * scoring), the school level (indicator words, then a vocabulary-complexity
 * score) and the content type (cue words).
 */
module Classify {
  import opened Text
  import opened Registry
  import Seqs

  // ---------------------------------------------------------------- discipline

  /** The disciplines of the keyword table, in its order; `generic` is never scored. */
  const ScoredDisciplines: seq<Discipline> :=
    [Mathematics, Literature, Science, History, Geography, Languages, Arts]

  /** The keyword lists of the scored disciplines, as the table writes them. */
  const MathematicsKeywords: seq<string> := [
    "équation", "formule", "calcul", "théorème", "démonstration", "fonction",
    "géométrie", "algèbre", "probabilité", "statistique", "dérivée", "intégrale",
    "nombre", "fraction", "pourcentage", "graphique", "courbe", "coordonnées"]

  const LiteratureKeywords: seq<string> := [
    "auteur", "œuvre", "roman", "poésie", "théâtre", "personnage", "narrateur",
    "métaphore", "allégorie", "symbolisme", "style", "genre", "siècle",
    "littéraire", "analyse", "commentaire", "dissertation", "citation"]

  const ScienceKeywords: seq<string> := [
    "expérience", "hypothèse", "observation", "protocole", "résultat", "conclusion",
    "physique", "chimie", "biologie", "atome", "molécule", "cellule",
    "énergie", "force", "réaction", "évolution", "écosystème", "ADN"]

  const HistoryKeywords: seq<string> := [
    "siècle", "époque", "période", "guerre", "révolution", "roi", "empereur",
    "civilisation", "société", "politique", "économie", "culture",
    "chronologie", "événement", "personnage historique", "date"]

  const GeographyKeywords: seq<string> := [
    "continent", "pays", "région", "climat", "relief", "montagne", "fleuve",
    "océan", "population", "ville", "capitale", "territoire",
    "carte", "coordonnées", "latitude", "longitude", "géographique"]

  const LanguagesKeywords: seq<string> := [
    "grammaire", "vocabulaire", "conjugaison", "syntaxe", "phonétique",
    "prononciation", "accent", "langue", "traduction", "expression",
    "communication", "oral", "écrit", "dialogue", "conversation"]

  const ArtsKeywords: seq<string> := [
    "peinture", "sculpture", "dessin", "couleur", "composition", "technique",
    "artiste", "œuvre", "style", "mouvement", "esthétique", "créativité",
    "expression", "forme", "lumière", "perspective", "art"]

  /** The keyword list of a discipline; `generic` has none. */
  function DisciplineKeywords(d: Discipline): (kws: seq<string>)
    ensures d == Generic <==> kws == []
  {
    match d
    case Mathematics => MathematicsKeywords
    case Literature => LiteratureKeywords
    case Science => ScienceKeywords
    case History => HistoryKeywords
    case Geography => GeographyKeywords
    case Languages => LanguagesKeywords
    case Arts => ArtsKeywords
    case Generic => []
  }

  /**
   * The `reduce` over a keyword list: the non-overlapping occurrences of every
   * keyword, summed from the first keyword on. The sum is zero exactly when no
   * keyword occurs.
   */
  function KeywordScore(t: string, kws: seq<string>): (n: nat)
    ensures n == 0 <==> forall i | 0 <= i < |kws| :: !Contains(t, kws[i])
  {
    if kws == [] then 0
    else KeywordScore(t, kws[..|kws| - 1]) + CountMatches(t, kws[|kws| - 1])
  }

  /** `scores[d]`: the score of discipline `d` on the lower-cased text `t`. */
  function Score(t: string, d: Discipline): nat {
    KeywordScore(t, DisciplineKeywords(d))
  }

  /** The `scores` object: one score per scored discipline, in table order. */
  function Scores(t: string): (s: seq<nat>)
    ensures |s| == |ScoredDisciplines|
    ensures forall k | 0 <= k < |s| :: s[k] == Score(t, ScoredDisciplines[k])
  {
    seq(|ScoredDisciplines|, k requires 0 <= k < |ScoredDisciplines| => Score(t, ScoredDisciplines[k]))
  }

  /**
   * `Object.entries(scores).reduce((a, b) => scores[a] > scores[b] ? a : b)`,
   * as a position: a maximal score, and among several the last one, because
   * the accumulator is kept only when it is strictly greater.
   */
  function BestIndex(scores: seq<nat>): (i: nat)
    requires |scores| > 0
    ensures i < |scores|
    ensures forall k | 0 <= k < |scores| :: scores[k] <= scores[i]
    ensures forall k | i < k < |scores| :: scores[k] < scores[i]
  {
    if |scores| == 1 then 0
    else
      var a := BestIndex(scores[..|scores| - 1]);
      var last := |scores| - 1;
      if scores[a] > scores[last] then a else last
  }

  /** `detectDiscipline`: the best match when it scored, `generic` otherwise. */
  function DetectedDiscipline(t: string): Discipline {
    var scores := Scores(t);
    var i := BestIndex(scores);
    if scores[i] > 0 then ScoredDisciplines[i] else Generic
  }

  /** The `keywords.reduce` of one discipline: its score on `t`. */
  method ScoreDiscipline(t: string, d: Discipline) returns (score: nat)
    ensures score == Score(t, d)
  {
    score := SumMatches(t, DisciplineKeywords(d));
  }

  /** The `reduce` loop over a keyword list: the summed match counts. */
  method SumMatches(t: string, kws: seq<string>) returns (score: nat)
    ensures score == KeywordScore(t, kws)
  {
    score := 0;
    for j := 0 to |kws|
      invariant score == KeywordScore(t, kws[..j])
    {
      assert kws[..j + 1][..j] == kws[..j];
      score := score + CountMatches(t, kws[j]);
    }
    assert kws[..|kws|] == kws;
  }

  /** The `reduce` over the score entries: the last position of a maximal score. */
  method FindBest(scores: seq<nat>) returns (best: nat)
    requires |scores| > 0
    ensures best == BestIndex(scores)
  {
    best := 0;
    for i := 1 to |scores|
      invariant 0 <= best < i
      invariant best == BestIndex(scores[..i])
    {
      assert scores[..i + 1][..i] == scores[..i];
      if !(scores[best] > scores[i]) {
        best := i;
      }
    }
    assert scores[..|scores|] == scores;
  }

  /** A list holding each discipline's score in table order is `Scores(t)`. */
  lemma ScoresAgree(t: string, scores: seq<nat>)
    requires |scores| == |ScoredDisciplines|
    requires forall k | 0 <= k < |scores| :: scores[k] == Score(t, ScoredDisciplines[k])
    ensures scores == Scores(t)
  {
  }

  /** `detectDiscipline(content)` on `t`, the lower-cased content. */
  method DetectDiscipline(t: string) returns (d: Discipline)
    ensures d == DetectedDiscipline(t)
  {
    var scores: seq<nat> := [];
    for i := 0 to |ScoredDisciplines|
      invariant |scores| == i
      invariant forall k | 0 <= k < i :: scores[k] == Score(t, ScoredDisciplines[k])
    {
      var score := ScoreDiscipline(t, ScoredDisciplines[i]);
      scores := scores + [score];
    }
    ScoresAgree(t, scores);
    var best := FindBest(scores);
    d := if scores[best] > 0 then ScoredDisciplines[best] else Generic;
  }

  /**
   * What the detector promises: `generic` exactly when no keyword of any
   * discipline occurs; otherwise a discipline whose score is positive and
   * maximal, every discipline listed after it scoring strictly less.
   */
  lemma DetectedDisciplineSpec(t: string)
    ensures DetectedDiscipline(t) == Generic <==>
      forall k | 0 <= k < |ScoredDisciplines| :: Score(t, ScoredDisciplines[k]) == 0
    ensures DetectedDiscipline(t) != Generic ==>
      exists i | 0 <= i < |ScoredDisciplines| ::
        && ScoredDisciplines[i] == DetectedDiscipline(t)
        && Score(t, ScoredDisciplines[i]) > 0
        && (forall k | 0 <= k < |ScoredDisciplines| :: Score(t, ScoredDisciplines[k]) <= Score(t, ScoredDisciplines[i]))
        && (forall k | i < k < |ScoredDisciplines| :: Score(t, ScoredDisciplines[k]) < Score(t, ScoredDisciplines[i]))
  {
    var s := Scores(t);
    var i := BestIndex(s);
    assert DetectedDiscipline(t) == if s[i] > 0 then ScoredDisciplines[i] else Generic;
    if s[i] > 0 {
      assert ScoredDisciplines[i] != Generic;
    } else {
      assert forall k | 0 <= k < |s| :: s[k] == 0;
    }
  }

  /**
   * The science keyword `ADN` is upper case, so on lower-cased text, where no
   * ASCII capital is left, it never contributes to the science score.
   */
  lemma {:induction false} AdnNeverCounts(t: string)
    requires forall i | 0 <= i < |t| :: !('A' <= t[i] <= 'Z')
    ensures CountMatches(t, "ADN") == 0
  {
    forall i ensures !OccursAt(t, "ADN", i) {
      if 0 <= i && i + 3 <= |t| {
        assert t[i..i + 3][0] == t[i];
      }
    }
  }

  // ---------------------------------------------------------------- level

  /** The keys of the level table. */
  datatype Level = Primaire | College | Lycee | Superieur | Professionnel

  /** The level's key string, accents included. */
  function LevelKey(l: Level): string {
    match l
    case Primaire => "primaire"
    case College => "collège"
    case Lycee => "lycée"
    case Superieur => "supérieur"
    case Professionnel => "professionnel"
  }

  /** The level table's order, which is the order the indicators are tried in. */
  const LevelOrder: seq<Level> := [Primaire, College, Lycee, Superieur, Professionnel]

  /** The indicator words of each level. */
  const PrimaireIndicators: seq<string> := ["cp", "ce1", "ce2", "cm1", "cm2", "élémentaire", "cycle 2", "cycle 3"]
  const CollegeIndicators: seq<string> :=
    ["6ème", "5ème", "4ème", "3ème", "sixième", "cinquième", "quatrième", "troisième", "cycle 4"]
  const LyceeIndicators: seq<string> :=
    ["seconde", "première", "terminale", "2nde", "1ère", "tale", "baccalauréat", "bac"]
  const SuperieurIndicators: seq<string> :=
    ["université", "master", "licence", "doctorat", "l1", "l2", "l3", "m1", "m2"]
  const ProfessionnelIndicators: seq<string> :=
    ["cap", "bep", "bac pro", "bts", "formation professionnelle", "apprentissage"]

  /** The indicator words of a level. */
  function LevelIndicators(l: Level): seq<string> {
    match l
    case Primaire => PrimaireIndicators
    case College => CollegeIndicators
    case Lycee => LyceeIndicators
    case Superieur => SuperieurIndicators
    case Professionnel => ProfessionnelIndicators
  }

  /** Some indicator of level `l` occurs in `t`. */
  predicate Indicated(t: string, l: Level) {
    MentionsAny(t, LevelIndicators(l))
  }

  /** The position, from `k` on, of the first level of the table that `t` indicates; 5 if none. */
  function FirstIndicated(t: string, k: nat): (i: nat)
    requires k <= |LevelOrder|
    ensures k <= i <= |LevelOrder|
    ensures forall j | k <= j < i :: !Indicated(t, LevelOrder[j])
    ensures i < |LevelOrder| ==> Indicated(t, LevelOrder[i])
    decreases |LevelOrder| - k
  {
    if k == |LevelOrder| then k
    else if Indicated(t, LevelOrder[k]) then k
    else FirstIndicated(t, k + 1)
  }

  /** The value of `calculateComplexityScore`; `Infinite` when there is no sentence to divide by. */
  datatype Complexity = Finite(value: real) | Infinite

  /** The summed `length`s of `words`, in UTF-16 code units. */
  function TotalLength(words: seq<string>): nat {
    if words == [] then 0 else TotalLength(words[..|words| - 1]) + Utf16Length(words[|words| - 1])
  }

  /** A word whose `length` is more than six UTF-16 code units. */
  predicate IsComplexWord(w: string) {
    Utf16Length(w) > 6
  }

  /**
   * `calculateComplexityScore(content)`: ten times the mean word length, plus
   * twice the mean number of words per sentence, plus a hundred times the share
   * of words longer than six characters. Words come from `split(/\s+/)`, which
   * never yields an empty list; sentences are the non-blank pieces of
   * `split(/[.!?]+/)`.
   */
  function ComplexityScore(content: string): (c: Complexity) {
    ScoreOf(Split(content, Spaces), Seqs.Filter(Split(content, SentenceMarks), TrimNonEmpty))
  }

  /** The score's formula over the words and the non-blank sentences. */
  function ScoreOf(words: seq<string>, sentences: seq<string>): Complexity
    requires words != []
  {
    var n := |words| as real;
    if |sentences| == 0 then Infinite
    else
      Finite(TotalLength(words) as real / n * 10.0
        + n / (|sentences| as real) * 2.0
        + (|Seqs.Filter(words, IsComplexWord)| as real) / n * 100.0)
  }

  /** The thresholds of `detectLevel` on the complexity score. */
  function LevelForScore(c: Complexity): (l: Level)
    ensures l != Professionnel
    ensures l == Primaire <==> c.Finite? && c.value < 30.0
    ensures l == College <==> c.Finite? && 30.0 <= c.value < 60.0
    ensures l == Lycee <==> c.Finite? && 60.0 <= c.value < 80.0
    ensures l == Superieur <==> c.Infinite? || 80.0 <= c.value
  {
    match c
    case Infinite => Superieur
    case Finite(v) =>
      if v < 30.0 then Primaire
      else if v < 60.0 then College
      else if v < 80.0 then Lycee
      else Superieur
  }

  /** `detectLevel`: `t` is the lower-cased `content`. */
  function DetectedLevel(t: string, content: string): Level {
    var i := FirstIndicated(t, 0);
    if i < |LevelOrder| then LevelOrder[i] else LevelForScore(ComplexityScore(content))
  }

  /** `detectLevel(content)`, with `t` the lower-cased `content`. */
  method DetectLevel(t: string, content: string) returns (l: Level)
    ensures l == DetectedLevel(t, content)
  {
    for i := 0 to |LevelOrder|
      invariant forall j | 0 <= j < i :: !Indicated(t, LevelOrder[j])
    {
      var indicators := LevelIndicators(LevelOrder[i]);
      var hit := false;
      for j := 0 to |indicators|
        invariant hit <==> exists k :: 0 <= k < j && Contains(t, indicators[k])
      {
        if Contains(t, indicators[j]) {
          hit := true;
        }
      }
      if hit {
        assert FirstIndicated(t, i) == i;
        FirstIndicatedSkips(t, 0, i);
        return LevelOrder[i];
      }
    }
    FirstIndicatedSkips(t, 0, |LevelOrder|);
    l := LevelForScore(ComplexityScore(content));
  }

  /** The search passes over levels that are not indicated. */
  lemma {:induction false} FirstIndicatedSkips(t: string, k: nat, i: nat)
    requires k <= i <= |LevelOrder|
    requires forall j | k <= j < i :: !Indicated(t, LevelOrder[j])
    ensures FirstIndicated(t, k) == FirstIndicated(t, i)
    decreases i - k
  {
    if k < i {
      FirstIndicatedSkips(t, k + 1, i);
    }
  }

  /**
   * What `detectLevel` promises: the first level of the table with an
   * indicator in the text; without any, the complexity band, which is never
   * `professionnel`.
   */
  lemma DetectedLevelSpec(t: string, content: string)
    ensures forall i | 0 <= i < |LevelOrder| ::
      (Indicated(t, LevelOrder[i]) && forall j | 0 <= j < i :: !Indicated(t, LevelOrder[j]))
        ==> DetectedLevel(t, content) == LevelOrder[i]
    ensures (forall i | 0 <= i < |LevelOrder| :: !Indicated(t, LevelOrder[i]))
      ==> DetectedLevel(t, content) == LevelForScore(ComplexityScore(content))
    ensures DetectedLevel(t, content) == Professionnel ==> Indicated(t, Professionnel)
  {
    var k := FirstIndicated(t, 0);
    forall i | 0 <= i < |LevelOrder| && Indicated(t, LevelOrder[i]) && forall j | 0 <= j < i :: !Indicated(t, LevelOrder[j])
      ensures DetectedLevel(t, content) == LevelOrder[i]
    {
      FirstIndicatedSkips(t, 0, i);
    }
  }

  /** No level indicator occurs in the empty string. */
  lemma NothingIndicatedInEmpty(t: string)
    requires |t| == 0
    ensures forall i | 0 <= i < |LevelOrder| :: !Indicated(t, LevelOrder[i])
  {
    forall i | 0 <= i < |LevelOrder| ensures !Indicated(t, LevelOrder[i]) {
      NoMentionInEmpty(t, LevelIndicators(LevelOrder[i]));
    }
  }

  /**
   * An empty document has one empty word and no sentence: its score is
   * infinite and it is classified `supérieur`.
   */
  lemma EmptyDocumentIsSuperieur()
    ensures ComplexityScore("") == Infinite
    ensures DetectedLevel("", "") == Superieur
  {
    assert Split("", SentenceMarks) == [""];
    assert !TrimNonEmpty("");
    assert Seqs.Filter([""], TrimNonEmpty) == [];
    NothingIndicatedInEmpty("");
    FirstIndicatedSkips("", 0, |LevelOrder|);
  }

  /**
   * A text that is one word and one sentence scores ten times its `length`,
   * plus 2, plus 100 when that `length` is more than six.
   */
  lemma SingleWordScore(w: string)
    requires Split(w, Spaces) == [w] && Split(w, SentenceMarks) == [w]
    requires TrimNonEmpty(w)
    ensures ComplexityScore(w)
      == Finite(Utf16Length(w) as real * 10.0 + 2.0 + (if Utf16Length(w) > 6 then 100.0 else 0.0))
  {
    assert Seqs.Filter([w], TrimNonEmpty) == [w];
    OneWordOneSentence(w);
  }

  /** The formula on one word in one sentence. */
  lemma OneWordOneSentence(w: string)
    ensures ScoreOf([w], [w])
      == Finite(Utf16Length(w) as real * 10.0 + 2.0 + (if Utf16Length(w) > 6 then 100.0 else 0.0))
  {
    var complex := |Seqs.Filter([w], IsComplexWord)|;
    assert complex == if IsComplexWord(w) then 1 else 0 by {
      Seqs.FilterSnoc([], w, IsComplexWord);
      assert [] + [w] == [w];
    }
    var len := TotalLength([w]);
    assert len == Utf16Length(w) by {
      assert [w][..0] == [] && [w][0] == w;
      assert TotalLength([w]) == TotalLength([]) + Utf16Length(w);
    }
    assert len as real / 1.0 * 10.0 == len as real * 10.0;
    assert complex as real / 1.0 * 100.0 == if Utf16Length(w) > 6 then 100.0 else 0.0;
  }

  /** A text with neither `\s` nor a sentence mark, and not blank, is one word in one sentence. */
  lemma OneWordScore(w: string)
    requires forall j :: 0 <= j < |w| ==> !InClass(Spaces, w[j])
    requires forall j :: 0 <= j < |w| ==> !InClass(SentenceMarks, w[j])
    requires TrimNonEmpty(w)
    ensures ComplexityScore(w)
      == Finite(Utf16Length(w) as real * 10.0 + 2.0 + (if Utf16Length(w) > 6 then 100.0 else 0.0))
  {
    SplitNoClass(w, Spaces);
    SplitNoClass(w, SentenceMarks);
    SingleWordScore(w);
  }

  /**
   * `length` counts UTF-16 code units: four emoji, each beyond the Basic
   * Multilingual Plane, are one word of length 8, in one sentence, so the
   * score is 80 + 2 + 100 and the fallback level supérieur.
   */
  lemma AstralWordScore()
    ensures ComplexityScore("\U{1F389}\U{1F389}\U{1F389}\U{1F389}") == Finite(182.0)
    ensures LevelForScore(ComplexityScore("\U{1F389}\U{1F389}\U{1F389}\U{1F389}")) == Superieur
  {
    var e := "\U{1F389}\U{1F389}\U{1F389}\U{1F389}";
    assert Utf16Length(e) == 8;
    assert TrimNonEmpty(e) by { assert !IsJsSpace(e[0]); }
    OneWordScore(e);
  }

  // ---------------------------------------------------------------- content type

  /** The content types `detectContentType` returns. */
  datatype ContentType = Cours | Exercices | Evaluation | Projet

  /** The content type's key string. */
  function ContentTypeKey(c: ContentType): string {
    match c
    case Cours => "cours"
    case Exercices => "exercices"
    case Evaluation => "évaluation"
    case Projet => "projet"
  }

  /** The cue words of each tested content type, in the order they are tried. */
  const ExerciseCues: seq<string> := ["exercice", "question", "calculer"]
  const EvaluationCues: seq<string> := ["évaluation", "contrôle", "test"]
  const ProjectCues: seq<string> := ["projet", "réaliser", "créer"]

  /**
   * `detectContentType` on the lower-cased text: exercise cues win over
   * evaluation cues, which win over project cues; no cue at all is `cours`.
   */
  function DetectContentType(t: string): (r: ContentType)
    ensures r == Exercices <==> MentionsAny(t, ExerciseCues)
    ensures r == Evaluation <==> !MentionsAny(t, ExerciseCues) && MentionsAny(t, EvaluationCues)
    ensures r == Projet <==>
      !MentionsAny(t, ExerciseCues) && !MentionsAny(t, EvaluationCues) && MentionsAny(t, ProjectCues)
    ensures r == Cours <==>
      !MentionsAny(t, ExerciseCues) && !MentionsAny(t, EvaluationCues) && !MentionsAny(t, ProjectCues)
  {
    MentionsThree(t, ExerciseCues);
    MentionsThree(t, EvaluationCues);
    MentionsThree(t, ProjectCues);
    if Contains(t, "exercice") || Contains(t, "question") || Contains(t, "calculer") then Exercices
    else if Contains(t, "évaluation") || Contains(t, "contrôle") || Contains(t, "test") then Evaluation
    else if Contains(t, "projet") || Contains(t, "réaliser") || Contains(t, "créer") then Projet
    else Cours
  }

  /** `some` over three words is the disjunction of the three `includes`. */
  lemma MentionsThree(t: string, ws: seq<string>)
    requires |ws| == 3
    ensures MentionsAny(t, ws) <==> Contains(t, ws[0]) || Contains(t, ws[1]) || Contains(t, ws[2])
  {
  }
}
