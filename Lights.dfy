/** The light record the scene fills in and the renderer reads. Lights.h,
    which declares it, is not part of this model: the record carries the
    fields Game.cpp sets and Renderer.cpp reads, and only the two light
    types they name. */
module Lights {
  import opened Common

  datatype LightType = Directional | Point

  datatype Light = Light(
    kind: LightType,
    direction: Vec3,
    range: real,
    position: Vec3,
    intensity: real,
    color: Vec3)

  /** The light vector the game owns and the renderer holds by reference,
      so a change the game makes is what the next frame reads. */
  class LightList {
    var items: seq<Light>

    constructor()
      ensures items == []
    {
      items := [];
    }
  }
}
