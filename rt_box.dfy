/** `RTBox`: an axis-aligned box as the GPU kernel reads it from the
    `boxes` buffer: min.xyz, max.xyz, then the material's four words. */
module BoxLayout {
  import opened Floats
  import Layout
  import MaterialLayout

  datatype RTBox = RTBox(min: Vector3, max: Vector3, material: MaterialLayout.RTMaterial)

  /** `RTBox.Size`: six floats for the corners plus the material's size. */
  function Size(): (bytes: int)
    ensures bytes == 40 && bytes == SizeOfFloat * 6 + MaterialLayout.Size()
  {
    SizeOfFloat * 6 + MaterialLayout.Size()
  }

  function WordCount(): (n: nat)
    ensures n * SizeOfFloat == Size() && n == 10
  {
    Size() / SizeOfFloat
  }

  /** The words of one record, fields in declaration order. */
  function Encode(b: RTBox): (w: seq<Word>)
    ensures |w| == WordCount()
    ensures w[0] == b.min.x.bits && w[1] == b.min.y.bits && w[2] == b.min.z.bits
    ensures w[3] == b.max.x.bits && w[4] == b.max.y.bits && w[5] == b.max.z.bits
    ensures w[6..] == MaterialLayout.Encode(b.material)
  {
    EncodeVector3(b.min) + EncodeVector3(b.max) + MaterialLayout.Encode(b.material)
  }

  function Decode(w: seq<Word>): (b: RTBox)
    requires |w| == WordCount()
    ensures EncodeVector3(b.min) == w[0..3] && EncodeVector3(b.max) == w[3..6]
    ensures MaterialLayout.Encode(b.material) == w[6..]
  {
    RTBox(DecodeVector3(w[0..3]), DecodeVector3(w[3..6]), MaterialLayout.Decode(w[6..]))
  }

  lemma {:induction false} DecodeEncode(b: RTBox)
    ensures Decode(Encode(b)) == b
  {
    var w := Encode(b);
    assert w[0..3] == EncodeVector3(b.min);
    assert w[3..6] == EncodeVector3(b.max);
    Vector3RoundTrip(b.min);
    Vector3RoundTrip(b.max);
    MaterialLayout.DecodeEncode(b.material);
  }

  lemma {:induction false} EncodeDecode(w: seq<Word>)
    requires |w| == WordCount()
    ensures Encode(Decode(w)) == w
  {
    var b := Decode(w);
    assert w == w[0..3] + w[3..6] + w[6..];
    assert Encode(b) == EncodeVector3(b.min) + EncodeVector3(b.max) + MaterialLayout.Encode(b.material);
  }

  /** Encode and Decode form a 10-word record format. */
  lemma {:induction false} Format()
    ensures Layout.IsFormat(Encode, Decode, WordCount())
  {
    forall x: RTBox
      ensures Decode.requires(Encode(x)) && Decode(Encode(x)) == x
    {
      DecodeEncode(x);
    }
    forall w: seq<Word> | |w| == WordCount()
      ensures Decode.requires(w) && Encode(Decode(w)) == w
    {
      EncodeDecode(w);
    }
  }

  /** The contents of the `boxes` buffer: the records back to back. */
  function Pack(boxes: seq<RTBox>): (ws: seq<Word>)
    ensures |ws| == WordCount() * |boxes|
  {
    Layout.Pack(Encode, WordCount(), boxes)
  }

  /** Record i of a buffer, read at stride `WordCount()`. */
  function RecordAt(ws: seq<Word>, i: nat): RTBox
    requires WordCount() * i + WordCount() <= |ws|
  {
    Layout.RecordAt(Decode, WordCount(), ws, i)
  }

  /** The box read at index i of any buffer is the one whose encoding is
      words [10i, 10i+10). */
  lemma {:induction false} RecordAtEncoding(ws: seq<Word>, i: nat)
    requires WordCount() * i + WordCount() <= |ws|
    ensures Encode(RecordAt(ws, i)) == ws[WordCount() * i .. WordCount() * i + WordCount()]
  {
    var w := ws[WordCount() * i .. WordCount() * i + WordCount()];
    assert RecordAt(ws, i) == Decode(w);
    EncodeDecode(w);
  }

  /** Box i occupies words [10i, 10i+10) of the packed buffer, and reading
      record i at stride 10 gives box i back. */
  lemma {:induction false} PackAt(boxes: seq<RTBox>, i: nat)
    requires i < |boxes|
    ensures WordCount() * i + WordCount() <= |Pack(boxes)|
    ensures Pack(boxes)[WordCount() * i .. WordCount() * i + WordCount()] == Encode(boxes[i])
    ensures RecordAt(Pack(boxes), i) == boxes[i]
  {
    Format();
    Layout.PackAt(Encode, Decode, WordCount(), boxes, i);
  }

  /** Reading every record of a packed buffer at stride 10 gives the
      sequence back, index for index. */
  lemma {:induction false} PackRecordsAt(boxes: seq<RTBox>)
    ensures forall k :: 0 <= k < |boxes| ==> RecordAt(Pack(boxes), k) == boxes[k]
  {
    Format();
    Layout.PackRecordsAt(Encode, Decode, WordCount(), boxes);
  }
}
