/**
 * The accept/reject decision of the validate-pose skill, in its Python and its
 * C++ version. Both compare the translation error (meters) and the rotation
 * error (radians) between an object and its expected pose against optional
 * tolerances, position first. They differ on a tolerance that is not set: the
 * Python version compares against 0, the C++ version skips that comparison.
 * The two errors are inputs; computing them from the world's transforms is
 * not part of this model.
 */
module ValidatePose {
  import opened Outcomes

  /** The outcome of a validation: success, or the error that is raised or returned. */
  datatype PoseCheck =
    | Pass
    /** "Translation error of <diff> meters exceeds tolerance of <tolerance>". */
    | TranslationExceeds(diff: real, tolerance: real)
    /** "Rotation error of <diff> radians exceeds tolerance of <tolerance>". */
    | RotationExceeds(diff: real, tolerance: real)

  /** `params.x_tolerance if params.HasField('x_tolerance') else 0`. */
  function ToleranceOrZero(tolerance: Option<real>): real
  {
    if tolerance.Some? then tolerance.value else 0.0
  }

  /** `ValidatePose.execute`: an unset tolerance is 0; the position check comes first. */
  function ValidatePosePy(positionDiff: real, rotationDiff: real,
                          positionTolerance: Option<real>, rotationTolerance: Option<real>): (r: PoseCheck)
    ensures r.Pass? <==>
      positionDiff <= ToleranceOrZero(positionTolerance) && rotationDiff <= ToleranceOrZero(rotationTolerance)
    ensures r.TranslationExceeds? <==> positionDiff > ToleranceOrZero(positionTolerance)
    ensures r.TranslationExceeds? ==> r == TranslationExceeds(positionDiff, ToleranceOrZero(positionTolerance))
    ensures r.RotationExceeds? <==>
      positionDiff <= ToleranceOrZero(positionTolerance) && rotationDiff > ToleranceOrZero(rotationTolerance)
    ensures r.RotationExceeds? ==> r == RotationExceeds(rotationDiff, ToleranceOrZero(rotationTolerance))
  {
    var positionTol := if positionTolerance.Some? then positionTolerance.value else 0.0;
    var rotationTol := if rotationTolerance.Some? then rotationTolerance.value else 0.0;
    if positionDiff > positionTol then TranslationExceeds(positionDiff, positionTol)
    else if rotationDiff > rotationTol then RotationExceeds(rotationDiff, rotationTol)
    else Pass
  }

  /** Whether a set tolerance is exceeded; an unset one never is. */
  predicate ExceedsSetTolerance(diff: real, tolerance: Option<real>)
  {
    tolerance.Some? && diff > tolerance.value
  }

  /** `ValidatePose::Execute`: an unset tolerance skips its check; the position check comes first. */
  function ValidatePoseCc(positionDiff: real, rotationDiff: real,
                          positionTolerance: Option<real>, rotationTolerance: Option<real>): (r: PoseCheck)
    ensures r.Pass? <==>
      !ExceedsSetTolerance(positionDiff, positionTolerance) && !ExceedsSetTolerance(rotationDiff, rotationTolerance)
    ensures r.TranslationExceeds? <==> ExceedsSetTolerance(positionDiff, positionTolerance)
    ensures r.TranslationExceeds? ==> r == TranslationExceeds(positionDiff, positionTolerance.value)
    ensures r.RotationExceeds? <==>
      !ExceedsSetTolerance(positionDiff, positionTolerance) && ExceedsSetTolerance(rotationDiff, rotationTolerance)
    ensures r.RotationExceeds? ==> r == RotationExceeds(rotationDiff, rotationTolerance.value)
  {
    if positionTolerance.Some? && positionDiff > positionTolerance.value then
      TranslationExceeds(positionDiff, positionTolerance.value)
    else if rotationTolerance.Some? && rotationDiff > rotationTolerance.value then
      RotationExceeds(rotationDiff, rotationTolerance.value)
    else Pass
  }

  /** With both tolerances set, the two versions decide alike and report the same error. */
  lemma VersionsAgreeWhenTolerancesSet(positionDiff: real, rotationDiff: real, positionTolerance: real,
                                       rotationTolerance: real)
    ensures ValidatePosePy(positionDiff, rotationDiff, Some(positionTolerance), Some(rotationTolerance)) ==
      ValidatePoseCc(positionDiff, rotationDiff, Some(positionTolerance), Some(rotationTolerance))
  {
  }

  /** The Python version is the stricter one: whatever it accepts, the C++ version accepts. */
  lemma PyPassImpliesCcPass(positionDiff: real, rotationDiff: real,
                            positionTolerance: Option<real>, rotationTolerance: Option<real>)
    ensures ValidatePosePy(positionDiff, rotationDiff, positionTolerance, rotationTolerance).Pass? ==>
      ValidatePoseCc(positionDiff, rotationDiff, positionTolerance, rotationTolerance).Pass?
  {
  }

  /**
   * Without a position tolerance, the Python version accepts a pose only at
   * zero translation error, while the C++ version never rejects it for its
   * translation.
   */
  lemma UnsetPositionToleranceDiverges(positionDiff: real, rotationDiff: real, rotationTolerance: Option<real>)
    requires positionDiff >= 0.0
    ensures !ValidatePoseCc(positionDiff, rotationDiff, None, rotationTolerance).TranslationExceeds?
    ensures ValidatePosePy(positionDiff, rotationDiff, None, rotationTolerance).TranslationExceeds? <==>
      positionDiff != 0.0
  {
  }

  /** Without a rotation tolerance, likewise for the rotation error. */
  lemma UnsetRotationToleranceDiverges(positionDiff: real, rotationDiff: real, positionTolerance: Option<real>)
    requires rotationDiff >= 0.0
    ensures !ValidatePoseCc(positionDiff, rotationDiff, positionTolerance, None).RotationExceeds?
    ensures ValidatePosePy(positionDiff, rotationDiff, positionTolerance, None).Pass? ==> rotationDiff == 0.0
  {
  }

  /** Loosening the tolerances keeps an accepted pose accepted, in both versions. */
  lemma LooserTolerancesKeepPass(positionDiff: real, rotationDiff: real,
                                 positionTolerance: real, rotationTolerance: real,
                                 looserPosition: real, looserRotation: real)
    requires positionTolerance <= looserPosition && rotationTolerance <= looserRotation
    ensures ValidatePosePy(positionDiff, rotationDiff, Some(positionTolerance), Some(rotationTolerance)).Pass? ==>
      ValidatePosePy(positionDiff, rotationDiff, Some(looserPosition), Some(looserRotation)).Pass?
    ensures ValidatePoseCc(positionDiff, rotationDiff, Some(positionTolerance), Some(rotationTolerance)).Pass? ==>
      ValidatePoseCc(positionDiff, rotationDiff, Some(looserPosition), Some(looserRotation)).Pass?
    ensures ValidatePoseCc(positionDiff, rotationDiff, Some(positionTolerance), Some(rotationTolerance)).Pass? ==>
      ValidatePoseCc(positionDiff, rotationDiff, None, None).Pass?
  {
  }

  /** A norm of at most 1 has a square of at most 1. */
  lemma SquareOfUnitBounded(x: real)
    requires x >= 0.0
    ensures x <= 1.0 ==> x * x <= 1.0
  {
    if x <= 1.0 {
      assert x * x <= x * 1.0;
    }
  }

  /**
   * The pose scenarios with tolerances 1.0 m and 0.25 rad: an identical pose
   * passes; a translation of (1, 2, 3), whose norm squared is 14, is rejected
   * for its translation; a half turn (an angle of at least 3 rad) at the right
   * position is rejected for its rotation.
   */
  lemma ToleranceScenarios(translationNorm: real, halfTurn: real)
    requires translationNorm >= 0.0 && translationNorm * translationNorm == 14.0
    requires halfTurn >= 3.0
    ensures ValidatePosePy(0.0, 0.0, Some(1.0), Some(0.25)) == Pass
    ensures ValidatePosePy(translationNorm, 0.0, Some(1.0), Some(0.25)) == TranslationExceeds(translationNorm, 1.0)
    ensures ValidatePosePy(0.0, halfTurn, Some(1.0), Some(0.25)) == RotationExceeds(halfTurn, 0.25)
  {
    SquareOfUnitBounded(translationNorm);
  }
}
