/** `RTMaterial`: the four material floats of a box as the GPU kernel reads
    them, in declaration order. */
module MaterialLayout {
  import opened Floats

  datatype RTMaterial = RTMaterial(absorption: Float, transmission: Float, roughness: Float, scatter: Float)

  /** `RTMaterial.Size`: the record stride in bytes. */
  function Size(): (bytes: int)
    ensures bytes == 16 && bytes % SizeOfFloat == 0
  {
    SizeOfFloat * 4
  }

  /** Number of words one record occupies. */
  function WordCount(): (n: nat)
    ensures n * SizeOfFloat == Size() && n == 4
  {
    Size() / SizeOfFloat
  }

  /** The words of one record, fields in declaration order. */
  function Encode(m: RTMaterial): (w: seq<Word>)
    ensures |w| == WordCount()
    ensures w[0] == m.absorption.bits && w[1] == m.transmission.bits
    ensures w[2] == m.roughness.bits && w[3] == m.scatter.bits
  {
    [m.absorption.bits, m.transmission.bits, m.roughness.bits, m.scatter.bits]
  }

  /** Reads one record back, as the kernel does. */
  function Decode(w: seq<Word>): (m: RTMaterial)
    requires |w| == WordCount()
    ensures m.absorption.bits == w[0] && m.transmission.bits == w[1]
    ensures m.roughness.bits == w[2] && m.scatter.bits == w[3]
  {
    RTMaterial(Float(w[0]), Float(w[1]), Float(w[2]), Float(w[3]))
  }

  lemma DecodeEncode(m: RTMaterial)
    ensures Decode(Encode(m)) == m
  {
  }

  lemma EncodeDecode(w: seq<Word>)
    requires |w| == WordCount()
    ensures Encode(Decode(w)) == w
  {
  }

  /** Two materials with the same encoding are the same material. */
  lemma EncodeInjective(m1: RTMaterial, m2: RTMaterial)
    requires Encode(m1) == Encode(m2)
    ensures m1 == m2
  {
    DecodeEncode(m1);
    DecodeEncode(m2);
  }
}
