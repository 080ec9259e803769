/**
 * The usage guide, `generateUsageGuide(analysis)`: a title naming the
 * discipline, five sections and the technical requirements. A section's
 * content is written as its bullet lines.
 *
 * Lines are written as concatenations of short literals, so
 * `"Guide " + "d'utilisation "` is the text `Guide d'utilisation `: the
 * verifier compares long string literals character by character, and short
 * pieces keep the proofs about the guide cheap.
 */
module UsageGuide {
  import opened Text
  import opened Registry
  import opened Analysis

  /** One section: its title and its bullet lines. */
  datatype GuideSection = GuideSection(title: string, content: seq<string>)

  /** `technicalRequirements`. */
  datatype Requirements = Requirements(browsers: seq<string>, accessibility: seq<string>, features: seq<string>)

  /** The guide record. */
  datatype Guide = Guide(title: string, sections: seq<GuideSection>, technicalRequirements: Requirements)

  function MathematicsGuidance(): (lines: seq<string>)
    ensures |lines| == 4 && lines[0] != GeneralGuidance()[0]
  {
    [
      "Formules " + "interactives " + "avec " + "lecture " + "vocale",
      "Calculatrice " + "intégrée " + "accessible",
      "Graphiques " + "avec " + "descriptions " + "alternatives",
      "Démonstrations " + "étape par " + "étape"]
  }

  function LiteratureGuidance(): (lines: seq<string>)
    ensures |lines| == 4 && lines[0] != GeneralGuidance()[0]
  {
    [
      "Textes " + "avec " + "glossaire " + "contextuel",
      "Annotations " + "et " + "commentaires",
      "Références " + "biographiques " + "et " + "historiques",
      "Analyse " + "stylistique " + "guidée"]
  }

  function ScienceGuidance(): (lines: seq<string>)
    ensures |lines| == 4 && lines[0] != GeneralGuidance()[0]
  {
    [
      "Expériences " + "virtuelles " + "interactives",
      "Schémas " + "légendés " + "et décrits",
      "Protocoles " + "étape par " + "étape",
      "Simulations " + "accessibles"]
  }

  function HistoryGuidance(): (lines: seq<string>)
    ensures |lines| == 4 && lines[0] != GeneralGuidance()[0]
  {
    [
      "Chronologies " + "interactives",
      "Cartes " + "géographiques " + "accessibles",
      "Documents " + "d'époque " + "avec " + "contexte",
      "Liens vers " + "ressources " + "externes"]
  }

  function GeographyGuidance(): (lines: seq<string>)
    ensures |lines| == 4 && lines[0] != GeneralGuidance()[0]
  {
    [
      "Cartes " + "interactives " + "avec " + "descriptions",
      "Données " + "statistiques " + "en tableaux",
      "Comparaisons " + "régionales",
      "Outils de " + "mesure et " + "calcul"]
  }

  function LanguagesGuidance(): (lines: seq<string>)
    ensures |lines| == 4 && lines[0] != GeneralGuidance()[0]
  {
    [
      "Prononciation " + "audio " + "intégrée",
      "Exercices " + "d'écoute " + "adaptatifs",
      "Conjugaisons " + "interactives",
      "Contexte " + "culturel " + "enrichi"]
  }

  function ArtsGuidance(): (lines: seq<string>)
    ensures |lines| == 4 && lines[0] != GeneralGuidance()[0]
  {
    [
      "Galeries " + "d'œuvres " + "avec " + "descriptions",
      "Analyses " + "techniques " + "détaillées",
      "Comparaisons " + "stylistiques",
      "Outils de " + "création " + "numérique"]
  }

  /** The guidance for a discipline the table does not list. */
  function GeneralGuidance(): (lines: seq<string>)
    ensures |lines| == 4
  {
    [
      "Contenu " + "adaptatif " + "selon le " + "niveau",
      "Exercices " + "progressifs " + "et guidés",
      "Ressources " + "complémentaires",
      "Suivi de " + "progression " + "personnalisé"]
  }

  /**
   * `getDisciplinaryGuidance(discipline)`: the table lists the seven
   * disciplines, so `generic`, and only `generic`, gets the general guidance.
   */
  function DisciplinaryGuidance(d: Discipline): (lines: seq<string>)
    ensures |lines| == 4
    ensures lines == GeneralGuidance() <==> d == Generic
  {
    match d
    case Mathematics => MathematicsGuidance()
    case Literature => LiteratureGuidance()
    case Science => ScienceGuidance()
    case History => HistoryGuidance()
    case Geography => GeographyGuidance()
    case Languages => LanguagesGuidance()
    case Arts => ArtsGuidance()
    case Generic => GeneralGuidance()
  }

  function NavigationLines(): seq<string> {
    [
      "Utilisez " + "les " + "boutons " + "d'accessibilité " + "en haut à " + "droite",
      "Navigation " + "au clavier " + ": Tab, " + "Entrée, " + "Espace, " + "flèches",
      "Lecteur " + "d'écran : " + "Structures " + "sémantiques " + "optimisées",
      "Synthèse " + "vocale : " + "Bouton 🔊 " + "pour " + "écouter le " + "contenu"]
  }
  function PersonalisationLines(): seq<string> {
    [
      "Thème " + "sombre/clair " + "automatique",
      "Taille de " + "texte " + "ajustable",
      "Interface " + "simplifiée " + "disponible",
      "Préférences " + "sauvegardées " + "localement"]
  }
  function ExportLines(): seq<string> {
    [
      "Export PDF " + "avec " + "accessibilité " + "préservée",
      "Impression " + "optimisée",
      "Partage " + "via lien " + "ou réseaux " + "sociaux",
      "Sauvegarde " + "locale " + "automatique"]
  }

  /** The lines of the mini-game section, which name the discipline key. */
  function BreakLines(key: string): seq<string> {
    ["Pauses " + "intégrées " + "pour " + "maintenir " + "l'attention",
     "Jeux " + "adaptés à " + key,
     "Progression " + "gamifiée " + "et badges",
     "Adaptatif " + "selon le " + "niveau de " + "difficulté"]
  }

  function TitlePrefix(): string {
    "Guide " + "d'utilisation " + "- "
  }

  function TechnicalRequirements(): Requirements {
    Requirements(
      ["Chrome 90+", "Firefox 88+", "Safari 14+", "Edge 90+"],
      ["NVDA", "JAWS", "VoiceOver", "Dragon " + "NaturallySpeaking"],
      ["JavaScript " + "activé", "LocalStorage", "Web Speech " + "API " + "(optionnel)"])
  }

  /** `generateUsageGuide(analysis)`. */
  function GenerateUsageGuide(a: DocumentAnalysis): Guide {
    var key := Key(a.discipline);
    Guide(
      TitlePrefix() + key,
      [GuideSection("Navigation " + "et " + "Accessibilité", NavigationLines()),
       GuideSection("Fonctionnalités " + "Disciplinaires", DisciplinaryGuidance(a.discipline)),
       GuideSection("Mini-jeux " + "et Pauses " + "Cognitives", BreakLines(key)),
       GuideSection("Personnalisation", PersonalisationLines()),
       GuideSection("Export et " + "Partage", ExportLines())],
      TechnicalRequirements())
  }

  /**
   * The guide has five sections; its title is the prefix followed by the
   * discipline key, so the discipline can be read back from it; the second
   * section holds the discipline's guidance and the third names the key.
   */
  lemma UsageGuideSpec(a: DocumentAnalysis)
    ensures var g := GenerateUsageGuide(a);
      && |g.sections| == 5
      && g.title[..|TitlePrefix()|] == TitlePrefix()
      && FromKey(g.title[|TitlePrefix()|..]) == a.discipline
      && g.sections[1].content == DisciplinaryGuidance(a.discipline)
      && Contains(g.sections[2].content[1], Key(a.discipline))
  {
    var key := Key(a.discipline);
    assert (TitlePrefix() + key)[|TitlePrefix()|..] == key;
    KeyRoundTrip(a.discipline);
    ContainsMarker("Jeux " + "adaptés à ", key, "");
    assert "Jeux " + "adaptés à " + key + "" == BreakLines(key)[1];
  }
}
