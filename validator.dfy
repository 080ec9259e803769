/**
 * `validateAccessibility(htmlContent)`: five substring tests on a generated
 * document and a score out of 100.
 */
module Validator {
  import opened Text

  /** The `validation` record. `errors` and `warnings` are never filled. */
  datatype Validation = Validation(
    wcagAAA: bool,
    keyboardNavigation: bool,
    screenReaderCompatible: bool,
    mathematicalAccessibility: bool,
    multimodalContent: bool,
    responsiveDesign: bool,
    errors: seq<string>,
    warnings: seq<string>,
    score: nat)

  /** The markers the validator looks for. */
  const RoleMarker := "role="
  const TabindexMarker := "tabindex"
  const AltMarker := "alt="
  const AriaLabelMarker := "aria-label"
  const MediaMarker := "@media"
  const MathRoleMarker := RoleMarker + "\"math\""

  /** The `checks` array, in its order. */
  function Checks(v: Validation): seq<bool> {
    [v.screenReaderCompatible, v.keyboardNavigation, v.multimodalContent,
     v.responsiveDesign, v.mathematicalAccessibility]
  }

  /** `checks.filter(Boolean).length`. */
  function CountTrue(bs: seq<bool>): (n: nat)
    ensures n <= |bs|
  {
    if bs == [] then 0
    else
      (if bs[0] then 1 else 0) + CountTrue(bs[1..])
  }

  /** The record after the five marker tests, before scoring: each flag holds iff its marker occurs. */
  function FlagsOf(html: string): Validation {
    Validation(
      false,
      Contains(html, TabindexMarker),
      Contains(html, RoleMarker),
      Contains(html, MathRoleMarker),
      Contains(html, AltMarker) || Contains(html, AriaLabelMarker),
      Contains(html, MediaMarker),
      [], [], 0)
  }

  /**
   * Scoring: `count / 5 * 100`, which for a count of 0 to 5 is exactly
   * `20 * count` in floating point, and `wcagAAA` iff the score is at least 90.
   */
  function Scored(v: Validation): Validation {
    var score := 20 * CountTrue(Checks(v));
    v.(score := score, wcagAAA := score >= 90)
  }

  /** The validation of `html`. */
  function ValidationOf(html: string): Validation {
    Scored(FlagsOf(html))
  }

  /**
   * `validateAccessibility`: the five flags start false and are set one test
   * at a time, then the record is scored.
   */
  method ValidateAccessibility(html: string) returns (validation: Validation)
    ensures validation == ValidationOf(html)
  {
    var screenReaderCompatible, keyboardNavigation, multimodalContent := false, false, false;
    var responsiveDesign, mathematicalAccessibility := false, false;
    if Contains(html, RoleMarker) {
      screenReaderCompatible := true;
    }
    if Contains(html, TabindexMarker) {
      keyboardNavigation := true;
    }
    if Contains(html, AltMarker) || Contains(html, AriaLabelMarker) {
      multimodalContent := true;
    }
    if Contains(html, MediaMarker) {
      responsiveDesign := true;
    }
    if Contains(html, MathRoleMarker) {
      mathematicalAccessibility := true;
    }
    validation := Validation(false, keyboardNavigation, screenReaderCompatible, mathematicalAccessibility,
                             multimodalContent, responsiveDesign, [], [], 0);
    validation := ScoreValidation(validation);
  }

  /** The scoring step of `validateAccessibility`: the score from the `checks` array, then `wcagAAA`. */
  method ScoreValidation(flags: Validation) returns (validation: Validation)
    ensures validation == Scored(flags)
  {
    var checks := Checks(flags);
    var passed := CountTrue(checks);
    validation := flags.(score := 20 * passed);
    validation := validation.(wcagAAA := validation.score >= 90);
  }

  /** The count of five flags, one by one. */
  lemma CountFive(a: bool, b: bool, c: bool, d: bool, e: bool)
    ensures CountTrue([a, b, c, d, e]) ==
      (if a then 1 else 0) + (if b then 1 else 0) + (if c then 1 else 0) + (if d then 1 else 0) + (if e then 1 else 0)
  {
    var s := [a, b, c, d, e];
    assert CountTrue([e]) == (if e then 1 else 0) + CountTrue([e][1..]);
    assert CountTrue([d, e]) == (if d then 1 else 0) + CountTrue([d, e][1..]);
    assert [d, e][1..] == [e];
    assert CountTrue([c, d, e]) == (if c then 1 else 0) + CountTrue([c, d, e][1..]);
    assert [c, d, e][1..] == [d, e];
    assert CountTrue([b, c, d, e]) == (if b then 1 else 0) + CountTrue([b, c, d, e][1..]);
    assert [b, c, d, e][1..] == [c, d, e];
    assert CountTrue(s) == (if a then 1 else 0) + CountTrue(s[1..]);
    assert s[1..] == [b, c, d, e];
  }

  /**
   * The score is a multiple of 20 between 0 and 100; `wcagAAA` holds iff all
   * five flags hold; a `role="math"` marker is also a `role=` marker, so the
   * math flag implies the screen-reader flag; nothing is ever reported.
   */
  lemma ValidationSpec(html: string)
    ensures var v := ValidationOf(html);
      && v.score <= 100 && v.score % 20 == 0
      && (v.wcagAAA <==> v.screenReaderCompatible && v.keyboardNavigation && v.multimodalContent
                          && v.responsiveDesign && v.mathematicalAccessibility)
      && (v.wcagAAA <==> v.score == 100)
      && (v.mathematicalAccessibility ==> v.screenReaderCompatible)
      && v.errors == [] && v.warnings == []
  {
    var v := ValidationOf(html);
    CountFive(v.screenReaderCompatible, v.keyboardNavigation, v.multimodalContent,
              v.responsiveDesign, v.mathematicalAccessibility);
    if v.mathematicalAccessibility {
      ContainsPrefix(html, RoleMarker, "\"math\"");
    }
  }

  /**
   * A document carrying the `role=`, `tabindex`, `aria-label` and `@media`
   * markers scores 100 when it also carries `role="math"` and 80 otherwise.
   */
  lemma ScoreOfMarkedDocument(html: string)
    requires Contains(html, RoleMarker) && Contains(html, TabindexMarker)
    requires Contains(html, AriaLabelMarker) && Contains(html, MediaMarker)
    ensures ValidationOf(html).score == if Contains(html, MathRoleMarker) then 100 else 80
    ensures ValidationOf(html).wcagAAA <==> Contains(html, MathRoleMarker)
  {
    var v := ValidationOf(html);
    CountFive(true, true, true, true, Contains(html, MathRoleMarker));
  }
}
