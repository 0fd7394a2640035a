/** The one piece of a canvas's cached viewport store that the measurement
    tools write: the ray position. The rest of that store is not part of
    this model. */
module CachedViewport {
  import opened Wrappers
  import opened Geometry

  class Store {
    var rayPosition: Option<Point>

    constructor ()
      ensures rayPosition.None?
    {
      rayPosition := None;
    }

    method SetRayPosition(p: Point)
      modifies this`rayPosition
      ensures rayPosition == Some(p)
    {
      rayPosition := Some(p);
    }
  }
}
