/** The 4-byte float values the records carry. The pipeline only copies
    floats from scene objects into GPU records and never computes on them,
    so a float is identified with its 32-bit pattern and no arithmetic is
    defined. */
module Floats {

  /** One 4-byte slot of a structured GPU buffer. */
  type Word = bv32

  /** `sizeof(float)` in C#. */
  const SizeOfFloat: int := 4

  /** A single-precision float, known only by its bit pattern. */
  datatype Float = Float(bits: Word)

  /** Unity's `Vector3`: three floats x, y, z in that order. */
  datatype Vector3 = Vector3(x: Float, y: Float, z: Float)

  /** The three words a `Vector3` field occupies, in field order. */
  function EncodeVector3(v: Vector3): (w: seq<Word>)
    ensures |w| == 3
    ensures w[0] == v.x.bits && w[1] == v.y.bits && w[2] == v.z.bits
  {
    [v.x.bits, v.y.bits, v.z.bits]
  }

  function DecodeVector3(w: seq<Word>): (v: Vector3)
    requires |w| == 3
    ensures EncodeVector3(v) == w
  {
    Vector3(Float(w[0]), Float(w[1]), Float(w[2]))
  }

  lemma Vector3RoundTrip(v: Vector3)
    ensures DecodeVector3(EncodeVector3(v)) == v
  {
  }
}
