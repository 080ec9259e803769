/**
 * What the generated document guarantees: the accessibility markers every
 * section carries, the score the validator gives a generated document, the
 * stylesheet link the head chooses, and the `ReferenceError` that the head
 * as written raises.
 */
module DocumentFacts {
  import opened Text
  import opened Registry
  import opened Classify
  import opened Analysis
  import opened Resources
  import opened Validator
  import opened Document

  /** The toolbar opens with a `role=` and an `aria-label` attribute. */
  lemma ToolbarMarkers()
    ensures Contains(ToolbarOpen(), RoleMarker) && Contains(ToolbarOpen(), AriaLabelMarker)
  {
    ContainsMarker("<div ", RoleMarker, ToolbarLabel());
    ContainsMarker("\"toolbar\" ", AriaLabelMarker, OptionsLabel());
    ContainsInfix("<div " + RoleMarker, ToolbarLabel(), "", AriaLabelMarker);
    assert "<div " + RoleMarker + ToolbarLabel() + "" == ToolbarOpen();
  }

  /** The header carries `role=` and `aria-label`, through its toolbar. */
  lemma HeaderMarkers(a: DocumentAnalysis, p: Profile)
    ensures Contains(Header(a, p), RoleMarker) && Contains(Header(a, p), AriaLabelMarker)
  {
    ToolbarMarkers();
    ContainsConcat(HeaderParts(a, p), 1, RoleMarker);
    ContainsConcat(HeaderParts(a, p), 1, AriaLabelMarker);
  }

  /** The style sheet carries `tabindex` (the motor-friendly rule) and `@media` (the layout rule). */
  lemma CssMarkers(p: Profile)
    ensures Contains(UniversalCss(p), TabindexMarker) && Contains(UniversalCss(p), MediaMarker)
  {
    ContainsMarker(MotorSelectors(), TabindexMarker, MotorSizes());
    ContainsMarker("", MediaMarker, LayoutQuery());
    assert "" + MediaMarker + LayoutQuery() == LayoutMediaRule();
    ContainsConcat(CssParts(p), 9, TabindexMarker);
    ContainsConcat(CssParts(p), 10, MediaMarker);
  }

  /** The head carries the style sheet, whatever value its link choice compares. */
  lemma HeadMarkers(discipline: string, a: DocumentAnalysis, p: Profile)
    ensures Contains(HeadWith(discipline, a, p), TabindexMarker) && Contains(HeadWith(discipline, a, p), MediaMarker)
  {
    CssMarkers(p);
    ContainsConcat(HeadParts(discipline, a, p), 17, TabindexMarker);
    ContainsConcat(HeadParts(discipline, a, p), 17, MediaMarker);
  }

  /** The mathematics content template holds the `role="math"` formula block. */
  lemma MathematicsContentMarker()
    ensures Contains(DisciplinaryContent(Mathematics), MathRoleMarker)
  {
    ContainsMarker(FormulaOpen(), MathRoleMarker, FormulaBody());
    ContainsInfix(TheoremOpen(), FormulaBlock(), "</div>\n", MathRoleMarker);
  }

  /** The main section of a mathematics document carries `role="math"`. */
  lemma MainMathMarker(a: DocumentAnalysis, p: Profile, game: MiniGame)
    requires a.discipline == Mathematics
    ensures Contains(Main(a, p, game), MathRoleMarker)
  {
    MathematicsContentMarker();
    ContainsConcat(MainParts(a, p, game), 5, MathRoleMarker);
  }

  /** A match in the head, the header or the main section is a match in the page. */
  lemma AssembledContains(s: HtmlStructure, m: string)
    requires Contains(s.head, m) || Contains(s.header, m) || Contains(s.main, m)
    ensures Contains(AssembleFullHtml(s), m)
  {
    if Contains(s.head, m) {
      ContainsConcat(PageParts(s), 1, m);
    } else if Contains(s.header, m) {
      ContainsConcat(PageParts(s), 3, m);
    } else {
      ContainsConcat(PageParts(s), 5, m);
    }
  }

  /** Every generated document carries `role=` and `aria-label`, in its header. */
  lemma DocumentHeaderMarkers(
    a: DocumentAnalysis, p: Profile, game: MiniGame, features: map<string, Feature>, date: string,
    resources: seq<SearchResult>)
    ensures var html := GenerateAccessibleDocument(a, p, game, features, date, resources);
      Contains(html, RoleMarker) && Contains(html, AriaLabelMarker)
  {
    var s := Structure(a, p, game, features, date);
    HeaderMarkers(a, p);
    AssembledContains(s, RoleMarker);
    AssembledContains(s, AriaLabelMarker);
  }

  /** Every generated document carries `tabindex` and `@media`, in the style sheet of its head. */
  lemma DocumentStyleMarkers(
    a: DocumentAnalysis, p: Profile, game: MiniGame, features: map<string, Feature>, date: string,
    resources: seq<SearchResult>)
    ensures var html := GenerateAccessibleDocument(a, p, game, features, date, resources);
      Contains(html, TabindexMarker) && Contains(html, MediaMarker)
  {
    var s := Structure(a, p, game, features, date);
    HeadMarkers(Key(a.discipline), a, p);
    AssembledContains(s, TabindexMarker);
    AssembledContains(s, MediaMarker);
  }

  /** A generated mathematics document carries `role="math"`, in its main section. */
  lemma DocumentMathMarker(
    a: DocumentAnalysis, p: Profile, game: MiniGame, features: map<string, Feature>, date: string,
    resources: seq<SearchResult>)
    requires a.discipline == Mathematics
    ensures Contains(GenerateAccessibleDocument(a, p, game, features, date, resources), MathRoleMarker)
  {
    MainMathMarker(a, p, game);
    AssembledContains(Structure(a, p, game, features, date), MathRoleMarker);
  }

  /**
   * The validator scores every generated document 80 or 100, and a
   * mathematics document 100 with `wcagAAA` set.
   */
  lemma DocumentScore(
    a: DocumentAnalysis, p: Profile, game: MiniGame, features: map<string, Feature>, date: string,
    resources: seq<SearchResult>)
    ensures var v := ValidationOf(GenerateAccessibleDocument(a, p, game, features, date, resources));
      && (v.score == 80 || v.score == 100)
      && (a.discipline == Mathematics ==> v.score == 100 && v.wcagAAA)
  {
    DocumentHeaderMarkers(a, p, game, features, date, resources);
    DocumentStyleMarkers(a, p, game, features, date, resources);
    if a.discipline == Mathematics {
      DocumentMathMarker(a, p, game, features, date, resources);
    }
    ScoreOfMarkedDocument(GenerateAccessibleDocument(a, p, game, features, date, resources));
  }

  /**
   * The head links KaTeX exactly for mathematics and never links
   * OpenDyslexic: no discipline key is `'dyslexia-friendly'`.
   */
  lemma HeadLinks(d: Discipline)
    ensures OptionalLinks(Key(d)) == (if d == Mathematics then KatexLink() else "") + "\n"
  {
    assert (Key(d) == "mathematics") == (d == Mathematics) by {
      KeyRoundTrip(d);
      if Key(d) == "mathematics" {
        assert FromKey(Key(d)) == FromKey(Key(Mathematics));
      }
    }
    assert Key(d) != "dyslexia-friendly" by {
      match d
      case Mathematics =>
      case Literature =>
      case Science =>
      case History =>
      case Geography =>
      case Languages =>
      case Arts =>
      case Generic =>
    }
  }

  /** A mathematics document links the KaTeX style sheet. */
  lemma MathematicsLinksKatex(
    a: DocumentAnalysis, p: Profile, game: MiniGame, features: map<string, Feature>, date: string,
    resources: seq<SearchResult>)
    requires a.discipline == Mathematics
    ensures Contains(GenerateAccessibleDocument(a, p, game, features, date, resources), KatexLink())
  {
    var s := Structure(a, p, game, features, date);
    HeadLinks(a.discipline);
    ContainsMarker("", KatexLink(), "\n");
    assert OptionalLinks(Key(a.discipline)) == "" + KatexLink() + "\n";
    ContainsConcat(HeadParts(Key(a.discipline), a, p), 15, KatexLink());
    AssembledContains(s, KatexLink());
  }

  /**
   * As written, a page without a global binding named `discipline` never
   * gets a document: the head throws, and the call with it.
   */
  lemma AsWrittenThrows(
    globals: map<string, string>, a: DocumentAnalysis, p: Profile, game: MiniGame, features: map<string, Feature>,
    date: string, resources: seq<SearchResult>)
    requires "discipline" !in globals
    ensures GenerateAccessibleDocumentAsWritten(globals, a, p, game, features, date, resources)
      == Thrown(UndeclaredDiscipline())
  {
  }

  /**
   * Where a global `discipline` happens to hold the analysis's discipline
   * key, the code as written produces the corrected document.
   */
  lemma AsWrittenAgrees(
    globals: map<string, string>, a: DocumentAnalysis, p: Profile, game: MiniGame, features: map<string, Feature>,
    date: string, resources: seq<SearchResult>)
    requires "discipline" in globals && globals["discipline"] == Key(a.discipline)
    ensures GenerateAccessibleDocumentAsWritten(globals, a, p, game, features, date, resources)
      == Returned(GenerateAccessibleDocument(a, p, game, features, date, resources))
  {
  }

  /**
   * When the map holds every key of `order`, the serialisation has one
   * member per key, in the order given, each the key with its feature.
   */
  lemma {:induction false} FeatureMembersOfKeys(features: map<string, Feature>, order: seq<string>)
    requires forall i | 0 <= i < |order| :: order[i] in features
    ensures |FeatureMembers(features, order)| == |order|
    ensures forall i | 0 <= i < |order| ::
      FeatureMembers(features, order)[i] == FeatureJson(order[i], features[order[i]])
    decreases |order|
  {
    if order != [] {
      FeatureMembersOfKeys(features, order[1..]);
    }
  }

  /** Keys the map lacks are skipped, so there are never more members than keys. */
  lemma {:induction false} FeatureMembersBound(features: map<string, Feature>, order: seq<string>)
    ensures |FeatureMembers(features, order)| <= |order|
    decreases |order|
  {
    if order != [] {
      FeatureMembersBound(features, order[1..]);
    }
  }

  /**
   * The script of a document built from a map with the ids of the feature
   * table (the model's map, switched any number of times) lists all eight
   * features in table order.
   */
  lemma ScriptListsEveryFeature(features: map<string, Feature>)
    requires features.Keys == InitialFeatures().Keys
    ensures |FeatureMembers(features, FeatureOrder)| == 8
    ensures forall i | 0 <= i < 8 ::
      FeatureMembers(features, FeatureOrder)[i] == FeatureJson(FeatureOrder[i], features[FeatureOrder[i]])
  {
    assert |FeatureOrder| == 8;
    forall i | 0 <= i < |FeatureOrder| ensures FeatureOrder[i] in features {
      assert FeatureOrder[i] in FeatureOrder;
    }
    FeatureMembersOfKeys(features, FeatureOrder);
  }
}
