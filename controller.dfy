/**
 * The two pieces of `UniversalPedagogyController` that carry logic of their
 * own: the grade shown beside a validation score, and the handler that
 * switches one accessibility feature of the model.
 */
module Controller {
  import opened Wrappers
  import opened Registry
  import opened Analysis
  import opened Resources
  import opened Validator
  import opened Model
  import Document
  import DocumentFacts

  /** The six grades, from best to worst. */
  datatype Grade = Excellent | VeryGood | Good | Fair | Acceptable | NeedsImprovement

  /** The position of a grade on the scale, 5 for the best. */
  function Rank(g: Grade): nat {
    match g
    case Excellent => 5
    case VeryGood => 4
    case Good => 3
    case Fair => 2
    case Acceptable => 1
    case NeedsImprovement => 0
  }

  /** The label the interface shows for a grade. */
  function GradeLabel(g: Grade): string {
    match g
    case Excellent => "Excellent (AAA)"
    case VeryGood => "Très Bon (AA+)"
    case Good => "Bon (AA)"
    case Fair => "Correct (A+)"
    case Acceptable => "Acceptable (A)"
    case NeedsImprovement => "À améliorer"
  }

  /** The band a score falls in: the first threshold, from the top, that it reaches. */
  function GradeOf(score: int): (g: Grade)
    ensures g == Excellent <==> 95 <= score
    ensures g == VeryGood <==> 85 <= score < 95
    ensures g == Good <==> 75 <= score < 85
    ensures g == Fair <==> 65 <= score < 75
    ensures g == Acceptable <==> 50 <= score < 65
    ensures g == NeedsImprovement <==> score < 50
  {
    if score >= 95 then Excellent
    else if score >= 85 then VeryGood
    else if score >= 75 then Good
    else if score >= 65 then Fair
    else if score >= 50 then Acceptable
    else NeedsImprovement
  }

  /** `getAccessibilityGrade(score)`. */
  function GetAccessibilityGrade(score: int): string {
    GradeLabel(GradeOf(score))
  }

  /** Different grades show different labels, so the label names the band. */
  lemma GradeLabelsDistinct(g: Grade, h: Grade)
    requires g != h
    ensures GradeLabel(g) != GradeLabel(h)
  {
    assert GradeLabel(g)[0] != GradeLabel(h)[0];
  }

  /** A higher score never gets a lower grade. */
  lemma GradeMonotone(s: int, t: int)
    requires s <= t
    ensures Rank(GradeOf(s)) <= Rank(GradeOf(t))
  {
  }

  /**
   * A generated document grades `Bon (AA)` or better, and a mathematics
   * document `Excellent (AAA)`.
   */
  lemma GeneratedDocumentGrade(
    a: DocumentAnalysis, p: Profile, game: MiniGame, features: map<string, Feature>, date: string,
    resources: seq<SearchResult>)
    ensures var g := GradeOf(ValidationOf(Document.GenerateAccessibleDocument(a, p, game, features, date, resources)).score);
      && Rank(g) >= Rank(Good)
      && (a.discipline == Mathematics ==> g == Excellent)
  {
    DocumentFacts.DocumentScore(a, p, game, features, date, resources);
  }

  /**
   * The feature map after the handler. Switching a known feature negates
   * its flag and nothing else: the same ids, the same name, description and
   * class, every other feature as it was. An unknown id leaves the map as
   * it is.
   */
  function Toggled(m: map<string, Feature>, k: string): (t: map<string, Feature>)
    ensures t.Keys == m.Keys
    ensures k in m ==> t[k].enabled == !m[k].enabled && t[k].(enabled := m[k].enabled) == m[k]
    ensures forall j | j in m && j != k :: t[j] == m[j]
    ensures k !in m ==> t == m
  {
    if k in m then m[k := m[k].(enabled := !m[k].enabled)] else m
  }

  /** The payload of the `notification` event. */
  datatype Notification = Notification(kind: string, message: string)

  /** The message announcing a feature's state. */
  function ToggleMessage(f: Feature): string {
    "♿ " + f.name + " " + (if f.enabled then "activé" else "désactivé")
  }

  /**
   * The notification the handler emits: one for a known feature, read after
   * the switch, so it names the feature and reports its new state, the
   * opposite of the old one; none for an unknown id.
   */
  function ToggleNotification(m: map<string, Feature>, k: string): (r: Option<Notification>)
    ensures r.Some? <==> k in m
    ensures k in m ==>
      r.value == Notification("info", "♿ " + m[k].name + " " + (if m[k].enabled then "désactivé" else "activé"))
  {
    if k in m then Some(Notification("info", ToggleMessage(Toggled(m, k)[k]))) else None
  }

  /** Switching the same feature twice restores the map. */
  lemma {:induction false} ToggleTwice(m: map<string, Feature>, k: string)
    ensures Toggled(Toggled(m, k), k) == m
  {
    if k in m {
      var t := Toggled(Toggled(m, k), k);
      assert t.Keys == m.Keys;
      forall j | j in m ensures t[j] == m[j] {
        if j == k {
          assert t[j].enabled == m[j].enabled;
        }
      }
    }
  }

  /** Switching a known feature moves the active count by one: down if it was on, up if it was off. */
  lemma ToggleActiveCount(m: map<string, Feature>, k: string)
    requires k in m
    ensures ActiveCount(Toggled(m, k)) == if m[k].enabled then ActiveCount(m) - 1 else ActiveCount(m) + 1
  {
    var t := Toggled(m, k);
    if m[k].enabled {
      assert ActiveFeatures(t) == ActiveFeatures(m) - {k};
    } else {
      assert ActiveFeatures(t) == ActiveFeatures(m) + {k};
    }
  }

  class PedagogyController {
    /** `this.universalPedagogyModel`. */
    const universalPedagogyModel: PedagogyModel

    /** The constructor builds its own model. */
    constructor ()
      ensures fresh(universalPedagogyModel)
      ensures universalPedagogyModel.accessibilityFeatures == InitialFeatures()
      ensures universalPedagogyModel.currentAnalysis == None
      ensures universalPedagogyModel.storedDocumentsAnalyzed == None
    {
      universalPedagogyModel := new PedagogyModel();
    }

    /**
     * `handleAccessibilityToggle(feature)`: the model's feature map is
     * switched in place, and the notification is returned rather than
     * emitted on the event bus.
     */
    method HandleAccessibilityToggle(feature: string) returns (notification: Option<Notification>)
      modifies universalPedagogyModel`accessibilityFeatures
      ensures universalPedagogyModel.accessibilityFeatures
        == Toggled(old(universalPedagogyModel.accessibilityFeatures), feature)
      ensures notification == ToggleNotification(old(universalPedagogyModel.accessibilityFeatures), feature)
    {
      var features := universalPedagogyModel.accessibilityFeatures;
      if feature in features {
        var f := features[feature];
        universalPedagogyModel.accessibilityFeatures := features[feature := f.(enabled := !f.enabled)];
        var switched := universalPedagogyModel.accessibilityFeatures[feature];
        notification := Some(Notification("info", ToggleMessage(switched)));
      } else {
        notification := None;
      }
    }
  }
}
