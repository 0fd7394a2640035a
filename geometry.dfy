/** Shared plain values: image-space points, the two canvases and a
    calibration record. Numbers are exact reals; the source's doubles are
    not modelled bit for bit. */
module Geometry {

  datatype Point = Point(x: real, y: real)

  /** The two side-by-side canvases of the comparison view. */
  datatype CanvasId = Left | Right {
    function Opposite(): CanvasId {
      if this == Left then Right else Left
    }
  }

  /** `{ pixelsPerUnit, unit }` as kept per canvas. */
  datatype Calibration = Calibration(pixelsPerUnit: real, unit: string)

  const DefaultCalibration: Calibration := Calibration(1.0, "px")

  /** Squared Euclidean distance; the source takes its square root, which
      is monotone, so every comparison is stated on the square. */
  function DistanceSquared(a: Point, b: Point): real {
    (b.x - a.x) * (b.x - a.x) + (b.y - a.y) * (b.y - a.y)
  }

  lemma SquareNonNegative(v: real)
    ensures v * v >= 0.0
  {
    if v < 0.0 {
      assert (-v) * (-v) >= 0.0;
    }
  }

  function Scale(p: Point, widthRatio: real, heightRatio: real): Point {
    Point(p.x * widthRatio, p.y * heightRatio)
  }

  function Min(a: real, b: real): real { if a <= b then a else b }
  function Abs(a: real): real { if a < 0.0 then -a else a }
}
