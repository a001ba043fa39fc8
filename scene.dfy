/** The scene components the manager collects. Only the fields the manager
    reads are modelled; how other code fills them in (renderer bounds for a
    box, the audio spectrum for a source) is not part of this model. */
module Scene {
  import opened Floats

  /** A `Box` component: world-space bounds and four material floats. */
  class Box {
    var min: Vector3
    var max: Vector3
    var absorption: Float
    var transmission: Float
    var roughness: Float
    var scatter: Float

    constructor (min: Vector3, max: Vector3, absorption: Float, transmission: Float, roughness: Float, scatter: Float)
      ensures this.min == min && this.max == max
      ensures this.absorption == absorption && this.transmission == transmission
      ensures this.roughness == roughness && this.scatter == scatter
    {
      this.min, this.max := min, max;
      this.absorption, this.transmission := absorption, transmission;
      this.roughness, this.scatter := roughness, scatter;
    }
  }

  /** The world transform of a game object; only its position is read. */
  class Transform {
    var position: Vector3

    constructor (position: Vector3)
      ensures this.position == position
    {
      this.position := position;
    }
  }

  /** A `Source` component: its game object's transform, and the color and
      intensity the audio code refreshes each frame. */
  class Source {
    const transform: Transform
    var color: Vector3
    var intensity: Float

    constructor (transform: Transform, color: Vector3, intensity: Float)
      ensures this.transform == transform && this.color == color && this.intensity == intensity
    {
      this.transform := transform;
      this.color, this.intensity := color, intensity;
    }
  }
}
