/** Vectors as stored: each float32 is its IEEE 754 binary32 bit pattern, little-endian. */
module Vectors {
  import opened Basics

  type Byte = x: nat | x < 0x100
  type Word = x: nat | x < 0x1_0000_0000
  type Vec = seq<Word>

  type Embedder = seq<string> -> Result<seq<Vec>, string>

  /** Any batch that succeeds maps each text by one fixed function, in order. */
  ghost predicate Pointwise(embed: Embedder, e: string -> Vec) {
    forall ts: seq<string> :: embed(ts).Ok? ==> embed(ts).value == Map(e, ts)
  }

  /** The four bytes of a word, lowest first: each the remainder of a further shift by eight. */
  function PutWord(w: Word): (b: seq<Byte>)
    ensures |b| == 4
  {
    var s1: nat := w / 0x100;
    var s2: nat := s1 / 0x100;
    var s3: nat := s2 / 0x100;
    [w % 0x100, s1 % 0x100, s2 % 0x100, s3]
  }

  function GetWord(b: seq<Byte>): Word
    requires |b| == 4
  {
    var b0: nat, b1: nat, b2: nat, b3: nat := b[0], b[1], b[2], b[3];
    b0 + 0x100 * (b1 + 0x100 * (b2 + 0x100 * b3))
  }

  lemma ShiftSplits(low: nat, high: nat)
    requires low < 0x100
    ensures (low + 0x100 * high) % 0x100 == low && (low + 0x100 * high) / 0x100 == high
  {
  }

  lemma WordRoundTrip(w: Word)
    ensures GetWord(PutWord(w)) == w
  {
    var s1: nat := w / 0x100;
    var s2: nat := s1 / 0x100;
    assert w == w % 0x100 + 0x100 * s1 && s1 == s1 % 0x100 + 0x100 * s2;
    assert s2 == s2 % 0x100 + 0x100 * (s2 / 0x100);
  }

  lemma BytesRoundTrip(b: seq<Byte>)
    requires |b| == 4
    ensures PutWord(GetWord(b)) == b
  {
    var b0: nat, b1: nat, b2: nat, b3: nat := b[0], b[1], b[2], b[3];
    ShiftSplits(b2, b3);
    ShiftSplits(b1, b2 + 0x100 * b3);
    ShiftSplits(b0, b1 + 0x100 * (b2 + 0x100 * b3));
  }

  function Encode(v: Vec): (b: seq<Byte>)
    ensures |b| == 4 * |v|
  {
    if v == [] then [] else Encode(v[..|v| - 1]) + PutWord(v[|v| - 1])
  }

  /** Trailing bytes that do not make a whole word are ignored. */
  function Decode(b: seq<Byte>): (v: Vec)
    ensures |v| == |b| / 4
  {
    seq(|b| / 4, i requires 0 <= i < |b| / 4 => GetWord(b[4 * i..4 * i + 4]))
  }

  lemma {:induction false} EncodedWord(v: Vec, i: nat)
    requires i < |v|
    ensures Encode(v)[4 * i..4 * i + 4] == PutWord(v[i])
  {
    var n := |v| - 1;
    if i < n {
      EncodedWord(v[..n], i);
      assert Encode(v)[4 * i..4 * i + 4] == Encode(v[..n])[4 * i..4 * i + 4];
    }
  }

  /** Storing a vector and loading it back gives the same bits. */
  lemma DecodeEncode(v: Vec)
    ensures Decode(Encode(v)) == v
  {
    hide PutWord, GetWord, Encode;
    forall i | 0 <= i < |v|
      ensures Decode(Encode(v))[i] == v[i]
    {
      EncodedWord(v, i);
      WordRoundTrip(v[i]);
    }
  }

  lemma RestoredByte(b: seq<Byte>, k: nat)
    requires k < 4 * (|b| / 4)
    ensures Encode(Decode(b))[k] == b[k]
  {
    var i, v := k / 4, Decode(b);
    hide PutWord, GetWord, Encode;
    EncodedWord(v, i);
    BytesRoundTrip(b[4 * i..4 * i + 4]);
    assert Encode(v)[k] == Encode(v)[4 * i..4 * i + 4][k - 4 * i];
  }

  /** Loading bytes and storing them again gives them back exactly when they are whole words. */
  lemma EncodeDecode(b: seq<Byte>)
    ensures Encode(Decode(b)) == b[..4 * (|b| / 4)]
    ensures Encode(Decode(b)) == b <==> |b| % 4 == 0
  {
    var v := Decode(b);
    forall k | 0 <= k < 4 * |v|
      ensures Encode(v)[k] == b[k]
    {
      RestoredByte(b, k);
    }
  }

  /** Byte 4 i is word i's lowest, byte 4 i + 3 its highest. */
  predicate LittleEndian(v: Vec, b: seq<Byte>) {
    && |b| == 4 * |v|
    && forall i :: 0 <= i < |v| ==>
         v[i] == Weighted(b[4 * i], b[4 * i + 1], b[4 * i + 2], b[4 * i + 3])
  }

  function Weighted(b0: nat, b1: nat, b2: nat, b3: nat): nat {
    b0 + 0x100 * b1 + 0x1_0000 * b2 + 0x100_0000 * b3
  }

  lemma EncodeIsLittleEndian(v: Vec)
    ensures LittleEndian(v, Encode(v))
  {
    hide Encode, PutWord;
    forall i | 0 <= i < |v|
      ensures v[i] == Weighted(Encode(v)[4 * i], Encode(v)[4 * i + 1], Encode(v)[4 * i + 2], Encode(v)[4 * i + 3])
    {
      EncodedWord(v, i);
      WordRoundTrip(v[i]);
      var word := Encode(v)[4 * i..4 * i + 4];
      assert word[0] == Encode(v)[4 * i] && word[1] == Encode(v)[4 * i + 1];
      assert word[2] == Encode(v)[4 * i + 2] && word[3] == Encode(v)[4 * i + 3];
    }
  }

  method EncodeVec(v: Vec) returns (b: array<Byte>)
    ensures fresh(b) && b[..] == Encode(v) && LittleEndian(v, b[..])
  {
    b := new Byte[|v| * 4](i => 0);
    for i := 0 to |v|
      invariant b[..4 * i] == Encode(v[..i])
    {
      assert v[..i + 1][..i] == v[..i];
      var w := v[i];
      var bytes := PutWord(w);
      b[i * 4], b[i * 4 + 1], b[i * 4 + 2], b[i * 4 + 3] := bytes[0], bytes[1], bytes[2], bytes[3];
      assert b[..4 * (i + 1)] == b[..4 * i] + PutWord(w);
    }
    assert v[..|v|] == v;
    assert b[..4 * |v|] == b[..];
    EncodeIsLittleEndian(v);
  }

  method DecodeVec(b: seq<Byte>) returns (v: array<Word>)
    ensures fresh(v) && v[..] == Decode(b)
  {
    v := new Word[|b| / 4](i => 0);
    for i := 0 to v.Length
      invariant forall k :: 0 <= k < i ==> v[k] == Decode(b)[k]
    {
      v[i] := GetWord(b[i * 4..i * 4 + 4]);
    }
  }
}
