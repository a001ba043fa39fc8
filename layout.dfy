/** Fixed-stride packing shared by the GPU record layouts: a structured
    buffer holds its records back to back, record i in words
    [k*i, k*i + k) for a record of k words. */
module Layout {
  import opened Floats

  /** The records' words laid out back to back, in order. */
  function Concat(chunks: seq<seq<Word>>): seq<Word>
  {
    if |chunks| == 0 then [] else chunks[0] + Concat(chunks[1..])
  }

  /** Every record has exactly k words. */
  ghost predicate HasStride(chunks: seq<seq<Word>>, k: nat)
  {
    forall i :: 0 <= i < |chunks| ==> |chunks[i]| == k
  }

  lemma {:induction false} ConcatLength(chunks: seq<seq<Word>>, k: nat)
    requires HasStride(chunks, k)
    ensures |Concat(chunks)| == k * |chunks|
  {
    if |chunks| > 0 {
      ConcatLength(chunks[1..], k);
      assert k * |chunks| == k + k * (|chunks| - 1);
    }
  }

  /** Record i occupies words [k*i, k*i + k) of the packed buffer. */
  lemma {:induction false} ConcatAt(chunks: seq<seq<Word>>, k: nat, i: nat)
    requires HasStride(chunks, k) && i < |chunks|
    ensures |Concat(chunks)| == k * |chunks|
    ensures k * i + k <= |Concat(chunks)|
    ensures Concat(chunks)[k * i .. k * i + k] == chunks[i]
  {
    ConcatLength(chunks, k);
    assert k * i + k == k * (i + 1);
    assert k * (i + 1) <= k * |chunks|;
    if i > 0 {
      var rest := chunks[1..];
      ConcatAt(rest, k, i - 1);
      assert k * i == k + k * (i - 1);
      assert Concat(chunks) == chunks[0] + Concat(rest);
      assert Concat(chunks)[k * i .. k * i + k] == Concat(rest)[k * (i - 1) .. k * (i - 1) + k];
    }
  }

  /** Cut n records of k words each out of a buffer of k*n words. */
  function Slices(ws: seq<Word>, k: nat, n: nat): (r: seq<seq<Word>>)
    requires |ws| == k * n
    ensures |r| == n && HasStride(r, k)
  {
    if n == 0 then []
    else
      assert k * n == k + k * (n - 1);
      [ws[..k]] + Slices(ws[k..], k, n - 1)
  }

  /** Re-packing the records cut out of a buffer gives the buffer back. */
  lemma {:induction false} ConcatSlices(ws: seq<Word>, k: nat, n: nat)
    requires |ws| == k * n
    ensures Concat(Slices(ws, k, n)) == ws
  {
    if n > 0 {
      assert k * n == k + k * (n - 1);
      ConcatSlices(ws[k..], k, n - 1);
      assert Slices(ws, k, n)[1..] == Slices(ws[k..], k, n - 1);
    }
  }

  /** Slice i of a buffer is words [k*i, k*i + k). */
  lemma {:induction false} SlicesAt(ws: seq<Word>, k: nat, n: nat, i: nat)
    requires |ws| == k * n && i < n
    ensures k * i + k <= |ws|
    ensures Slices(ws, k, n)[i] == ws[k * i .. k * i + k]
  {
    var r := Slices(ws, k, n);
    ConcatSlices(ws, k, n);
    ConcatAt(r, k, i);
  }

  /** `encode` turns every record into exactly k words. */
  ghost predicate HasWidth<T(!new)>(encode: T -> seq<Word>, k: nat)
  {
    forall x :: |encode(x)| == k
  }

  /** A record format of k words: `encode` gives k words, `decode` reads
      any k words, and each undoes the other. */
  ghost predicate IsFormat<T(!new)>(encode: T -> seq<Word>, decode: seq<Word> --> T, k: nat)
  {
    HasWidth(encode, k) &&
    (forall x :: decode.requires(encode(x)) && decode(encode(x)) == x) &&
    (forall w: seq<Word> :: |w| == k ==> decode.requires(w) && encode(decode(w)) == w)
  }

  /** The encodings of a sequence of records, in order. */
  function Records<T>(encode: T -> seq<Word>, xs: seq<T>): (r: seq<seq<Word>>)
    ensures |r| == |xs|
    ensures forall i :: 0 <= i < |xs| ==> r[i] == encode(xs[i])
  {
    seq(|xs|, i requires 0 <= i < |xs| => encode(xs[i]))
  }

  /** The contents of a structured buffer holding `xs`: the records back
      to back. */
  function Pack<T(!new)>(encode: T -> seq<Word>, k: nat, xs: seq<T>): (ws: seq<Word>)
    requires HasWidth(encode, k)
    ensures |ws| == k * |xs|
  {
    ConcatLength(Records(encode, xs), k);
    Concat(Records(encode, xs))
  }

  /** Record i of a buffer, read at stride k. */
  function RecordAt<T>(decode: seq<Word> --> T, k: nat, ws: seq<Word>, i: nat): T
    requires k * i + k <= |ws| && decode.requires(ws[k * i .. k * i + k])
  {
    decode(ws[k * i .. k * i + k])
  }

  /** Record i occupies words [k*i, k*i+k) of the packed buffer, and
      reading record i at stride k gives it back. */
  lemma PackAt<T(!new)>(encode: T -> seq<Word>, decode: seq<Word> --> T, k: nat, xs: seq<T>, i: nat)
    requires IsFormat(encode, decode, k) && i < |xs|
    ensures k * i + k <= |Pack(encode, k, xs)|
    ensures Pack(encode, k, xs)[k * i .. k * i + k] == encode(xs[i])
    ensures RecordAt(decode, k, Pack(encode, k, xs), i) == xs[i]
  {
    ConcatAt(Records(encode, xs), k, i);
  }

  /** Every record read at stride k from a packed buffer is the record at
      that index. */
  lemma PackRecordsAt<T(!new)>(encode: T -> seq<Word>, decode: seq<Word> --> T, k: nat, xs: seq<T>)
    requires IsFormat(encode, decode, k)
    ensures forall i :: 0 <= i < |xs| ==>
      k * i + k <= |Pack(encode, k, xs)| && RecordAt(decode, k, Pack(encode, k, xs), i) == xs[i]
  {
    forall i | 0 <= i < |xs|
      ensures k * i + k <= |Pack(encode, k, xs)| && RecordAt(decode, k, Pack(encode, k, xs), i) == xs[i]
    {
      PackAt(encode, decode, k, xs, i);
    }
  }

  /** All n records of a buffer of k*n words, read in order. */
  function Unpack<T>(decode: seq<Word> --> T, k: nat, ws: seq<Word>, n: nat): (xs: seq<T>)
    requires |ws| == k * n
    requires forall w: seq<Word> :: |w| == k ==> decode.requires(w)
    ensures |xs| == n
  {
    var chunks := Slices(ws, k, n);
    seq(n, i requires 0 <= i < n => decode(chunks[i]))
  }

  /** Reading back a packed buffer gives the same records in the same order. */
  lemma UnpackPack<T(!new)>(encode: T -> seq<Word>, decode: seq<Word> --> T, k: nat, xs: seq<T>)
    requires IsFormat(encode, decode, k)
    ensures Unpack(decode, k, Pack(encode, k, xs), |xs|) == xs
  {
    var ws := Pack(encode, k, xs);
    var u := Unpack(decode, k, ws, |xs|);
    forall i | 0 <= i < |xs|
      ensures u[i] == xs[i]
    {
      SlicesAt(ws, k, |xs|, i);
      PackAt(encode, decode, k, xs, i);
    }
  }

  /** Packing the records read from a buffer of k*n words gives the buffer
      back. */
  lemma PackUnpack<T(!new)>(encode: T -> seq<Word>, decode: seq<Word> --> T, k: nat, ws: seq<Word>, n: nat)
    requires IsFormat(encode, decode, k) && |ws| == k * n
    ensures Pack(encode, k, Unpack(decode, k, ws, n)) == ws
  {
    var s := Slices(ws, k, n);
    var r := Records(encode, Unpack(decode, k, ws, n));
    assert r == s;
    ConcatSlices(ws, k, n);
  }
}
