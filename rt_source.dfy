/** `RTSource`: a point sound source as the GPU kernel reads it from the
    `sources` buffer: position.xyz, color.xyz, intensity. */
module SourceLayout {
  import opened Floats
  import Layout

  datatype RTSource = RTSource(position: Vector3, color: Vector3, intensity: Float)

  /** `RTSource.Size`: seven floats. */
  function Size(): (bytes: int)
    ensures bytes == 28 && bytes % SizeOfFloat == 0
  {
    SizeOfFloat * 7
  }

  function WordCount(): (n: nat)
    ensures n * SizeOfFloat == Size() && n == 7
  {
    Size() / SizeOfFloat
  }

  /** The words of one record, fields in declaration order; the intensity
      is at word offset 6. */
  function Encode(s: RTSource): (w: seq<Word>)
    ensures |w| == WordCount()
    ensures w[0] == s.position.x.bits && w[1] == s.position.y.bits && w[2] == s.position.z.bits
    ensures w[3] == s.color.x.bits && w[4] == s.color.y.bits && w[5] == s.color.z.bits
    ensures w[6] == s.intensity.bits
  {
    EncodeVector3(s.position) + EncodeVector3(s.color) + [s.intensity.bits]
  }

  function Decode(w: seq<Word>): (s: RTSource)
    requires |w| == WordCount()
    ensures EncodeVector3(s.position) == w[0..3] && EncodeVector3(s.color) == w[3..6]
    ensures s.intensity.bits == w[6]
  {
    RTSource(DecodeVector3(w[0..3]), DecodeVector3(w[3..6]), Float(w[6]))
  }

  lemma {:induction false} DecodeEncode(s: RTSource)
    ensures Decode(Encode(s)) == s
  {
    var w := Encode(s);
    assert w[0..3] == EncodeVector3(s.position);
    assert w[3..6] == EncodeVector3(s.color);
    Vector3RoundTrip(s.position);
    Vector3RoundTrip(s.color);
  }

  lemma {:induction false} EncodeDecode(w: seq<Word>)
    requires |w| == WordCount()
    ensures Encode(Decode(w)) == w
  {
    var s := Decode(w);
    assert w == w[0..3] + w[3..6] + [w[6]];
    assert Encode(s) == EncodeVector3(s.position) + EncodeVector3(s.color) + [s.intensity.bits];
  }

  /** Encode and Decode form a 7-word record format. */
  lemma {:induction false} Format()
    ensures Layout.IsFormat(Encode, Decode, WordCount())
  {
    forall x: RTSource
      ensures Decode.requires(Encode(x)) && Decode(Encode(x)) == x
    {
      DecodeEncode(x);
    }
    forall w: seq<Word> | |w| == WordCount()
      ensures Decode.requires(w) && Encode(Decode(w)) == w
    {
      EncodeDecode(w);
    }
  }

  /** The contents of the `sources` buffer: the records back to back. */
  function Pack(sources: seq<RTSource>): (ws: seq<Word>)
    ensures |ws| == WordCount() * |sources|
  {
    Layout.Pack(Encode, WordCount(), sources)
  }

  /** Record i of a buffer, read at stride `WordCount()`. */
  function RecordAt(ws: seq<Word>, i: nat): RTSource
    requires WordCount() * i + WordCount() <= |ws|
  {
    Layout.RecordAt(Decode, WordCount(), ws, i)
  }

  /** The source read at index i of any buffer is the one whose encoding is
      words [7i, 7i+7). */
  lemma {:induction false} RecordAtEncoding(ws: seq<Word>, i: nat)
    requires WordCount() * i + WordCount() <= |ws|
    ensures Encode(RecordAt(ws, i)) == ws[WordCount() * i .. WordCount() * i + WordCount()]
  {
    var w := ws[WordCount() * i .. WordCount() * i + WordCount()];
    assert RecordAt(ws, i) == Decode(w);
    EncodeDecode(w);
  }

  /** Source i occupies words [7i, 7i+7) of the packed buffer, and reading
      record i at stride 7 gives source i back. */
  lemma {:induction false} PackAt(sources: seq<RTSource>, i: nat)
    requires i < |sources|
    ensures WordCount() * i + WordCount() <= |Pack(sources)|
    ensures Pack(sources)[WordCount() * i .. WordCount() * i + WordCount()] == Encode(sources[i])
    ensures RecordAt(Pack(sources), i) == sources[i]
  {
    Format();
    Layout.PackAt(Encode, Decode, WordCount(), sources, i);
  }

  /** Reading every record of a packed buffer at stride 7 gives the
      sequence back, index for index. */
  lemma {:induction false} PackRecordsAt(sources: seq<RTSource>)
    ensures forall k :: 0 <= k < |sources| ==> RecordAt(Pack(sources), k) == sources[k]
  {
    Format();
    Layout.PackRecordsAt(Encode, Decode, WordCount(), sources);
  }
}
