/**
 The calibration arithmetic of the estimator: the area of the rectangle (or the
 surface of the box) that converts a fraction of accepted samples into an
 integral, and the volume of a box. Doubles are modelled as reals, so rounding
 is not part of this model.
 */
module BoundingBox {

  /** Volume of a box with the three given side lengths. */
  function CalculateVolume(side1: real, side2: real, side3: real): (r: real)
    ensures 0.0 <= side1 && 0.0 <= side2 && 0.0 <= side3 ==> 0.0 <= r
    ensures side1 == 0.0 || side2 == 0.0 || side3 == 0.0 ==> r == 0.0
  {
    side1 * side2 * side3
  }

  /**
   Surface area of a "box" with `numberOfSides` faces: the flat rectangle
   side1 x side2 for 2 sides, the whole box surface for 6 sides, and a silent
   0.0 (no error) for every other count.
   */
  function CalculateSurfaceArea(numberOfSides: int, side1: real, side2: real, side3: real): (r: real)
    ensures numberOfSides != 2 && numberOfSides != 6 ==> r == 0.0
    ensures 0.0 <= side1 && 0.0 <= side2 && 0.0 <= side3 ==> 0.0 <= r
    ensures numberOfSides == 2 && (side1 == 0.0 || side2 == 0.0) ==> r == 0.0
  {
    if numberOfSides == 2 then
      side1 * side2
    else if numberOfSides == 6 then
      2.0 * side1 * side2 + 2.0 * side2 * side3 + 2.0 * side1 * side3
    else
      0.0
  }

  /** The worked values of the calibration: 3 x 4 rectangle, 2 x 3 x 4 box, an unsupported count. */
  lemma SurfaceAreaExamples()
    ensures CalculateSurfaceArea(2, 3.0, 4.0, 0.0) == 12.0
    ensures CalculateSurfaceArea(6, 2.0, 3.0, 4.0) == 52.0
    ensures CalculateSurfaceArea(5, 1.0, 1.0, 1.0) == 0.0
    ensures CalculateVolume(2.0, 3.0, 4.0) == 24.0
  {
  }

  /**
   The surface of a box is made of three pairs of opposite rectangular faces,
   each pair measured by the 2-sided case; the third side does not enter the
   2-sided case at all.
   */
  lemma BoxSurfaceIsSixFaces(side1: real, side2: real, side3: real, ignored: real)
    ensures CalculateSurfaceArea(6, side1, side2, side3)
         == 2.0 * (CalculateSurfaceArea(2, side1, side2, ignored)
                 + CalculateSurfaceArea(2, side2, side3, ignored)
                 + CalculateSurfaceArea(2, side1, side3, ignored))
    ensures CalculateSurfaceArea(2, side1, side2, side3) == CalculateSurfaceArea(2, side1, side2, ignored)
  {
  }

  /** The volume is the area of the base rectangle times the height. */
  lemma VolumeIsBaseTimesHeight(side1: real, side2: real, side3: real)
    ensures CalculateVolume(side1, side2, side3) == CalculateSurfaceArea(2, side1, side2, 0.0) * side3
  {
  }

  /**
   Neither calculation depends on the order in which the sides are given
   (for the rectangle, the order of its two sides).
   */
  lemma SidesCommute(side1: real, side2: real, side3: real)
    ensures CalculateSurfaceArea(2, side1, side2, side3) == CalculateSurfaceArea(2, side2, side1, side3)
    ensures CalculateSurfaceArea(6, side1, side2, side3) == CalculateSurfaceArea(6, side2, side1, side3)
    ensures CalculateSurfaceArea(6, side1, side2, side3) == CalculateSurfaceArea(6, side1, side3, side2)
    ensures CalculateVolume(side1, side2, side3) == CalculateVolume(side2, side1, side3)
    ensures CalculateVolume(side1, side2, side3) == CalculateVolume(side1, side3, side2)
  {
  }
}
