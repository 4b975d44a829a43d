/** UTF-16 text as JavaScript strings hold it: code units, with or without
    matching surrogate pairs, and the cuts that keep pairs whole. */
module Utf16 {
  type Unit = u: nat | u < 0x1_0000
  type Text = seq<Unit>

  /** A Unicode scalar value: any code point that is not a surrogate. */
  type Scalar = v: nat | v < 0xD800 || 0xE000 <= v < 0x11_0000

  predicate High(u: Unit) { 0xD800 <= u <= 0xDBFF }

  predicate Low(u: Unit) { 0xDC00 <= u <= 0xDFFF }

  // ----- The encoding form, definition D91 in section 3.9 of the Unicode Standard -----

  function EncodeScalar(v: Scalar): Text {
    if v < 0x1_0000 then [v]
    else [0xD800 + (v - 0x1_0000) / 0x400, 0xDC00 + (v - 0x1_0000) % 0x400]
  }

  function Encode(vs: seq<Scalar>): Text {
    if vs == [] then [] else EncodeScalar(vs[0]) + Encode(vs[1..])
  }

  ghost predicate IsEncoding(s: Text) {
    exists vs :: Encode(vs) == s
  }

  /** Every surrogate is half of a pair: what a left-to-right scan can decide. */
  predicate WellFormed(s: Text) {
    if s == [] then true
    else if High(s[0]) then |s| >= 2 && Low(s[1]) && WellFormed(s[2..])
    else !Low(s[0]) && WellFormed(s[1..])
  }

  function Decode(s: Text): (vs: seq<Scalar>)
    requires WellFormed(s)
    ensures Encode(vs) == s
  {
    if s == [] then []
    else if High(s[0]) then
      var v: Scalar := 0x1_0000 + (s[0] as int - 0xD800) * 0x400 + (s[1] as int - 0xDC00);
      assert EncodeScalar(v) == [s[0], s[1]];
      assert s == [s[0], s[1]] + s[2..];
      assert ([v] + Decode(s[2..]))[1..] == Decode(s[2..]);
      [v] + Decode(s[2..])
    else
      var v: Scalar := s[0];
      assert s == [s[0]] + s[1..];
      assert ([v] + Decode(s[1..]))[1..] == Decode(s[1..]);
      [v] + Decode(s[1..])
  }

  lemma {:induction false} EncodeIsWellFormed(vs: seq<Scalar>)
    ensures WellFormed(Encode(vs))
  {
    if vs != [] {
      EncodeIsWellFormed(vs[1..]);
      var s := Encode(vs);
      assert s[|EncodeScalar(vs[0])|..] == Encode(vs[1..]);
    }
  }

  /** The scan accepts exactly the encodings of scalar value sequences. */
  lemma WellFormedIffEncoding(s: Text)
    ensures WellFormed(s) <==> IsEncoding(s)
  {
    if WellFormed(s) {
      assert Encode(Decode(s)) == s;
    }
    if IsEncoding(s) {
      var vs :| Encode(vs) == s;
      EncodeIsWellFormed(vs);
    }
  }

  /** The index loop of `isWellFormedUnicode`; reading past the end never is a low surrogate. */
  method IsWellFormedUnicode(value: Text) returns (ok: bool)
    ensures ok <==> IsEncoding(value)
  {
    WellFormedIffEncoding(value);
    var index := 0;
    while index < |value|
      invariant 0 <= index <= |value|
      invariant WellFormed(value) <==> WellFormed(value[index..])
    {
      var unit := value[index];
      if High(unit) {
        if !(index + 1 < |value| && Low(value[index + 1])) {
          return false;
        }
        assert value[index..][2..] == value[index + 2..];
        index := index + 1;
      } else if Low(unit) {
        return false;
      } else {
        assert value[index..][1..] == value[index + 1..];
      }
      index := index + 1;
    }
    return true;
  }

  // ----- Cuts -----

  /** Cutting before index `k` would separate the halves of a pair. */
  predicate SplitsPair(s: Text, k: int) {
    0 < k < |s| && High(s[k - 1]) && Low(s[k])
  }

  function Min(a: int, b: int): int { if a < b then a else b }

  function Max(a: int, b: int): int { if a < b then b else a }

  /** JavaScript's `slice(0, end)`: a negative end counts from the back. */
  function SliceTo(s: Text, end: int): Text {
    if end < 0 then s[..Max(0, |s| + end)] else s[..Min(end, |s|)]
  }

  function SafePrefix(value: Text, maxCodeUnits: int): Text {
    var end := Min(|value|, maxCodeUnits);
    SliceTo(value, if SplitsPair(value, end) then end - 1 else end)
  }

  function SafeSuffix(value: Text, maxCodeUnits: int): Text {
    var start := Max(0, |value| - Max(0, maxCodeUnits));
    value[if SplitsPair(value, start) then start + 1 else start..]
  }

  /** In well-formed text the cuts that leave both sides well-formed are the ones
      that split no pair. */
  lemma {:induction false} CutWellFormed(s: Text, k: nat)
    requires WellFormed(s) && k <= |s|
    ensures WellFormed(s[..k]) <==> !SplitsPair(s, k)
    ensures WellFormed(s[k..]) <==> !SplitsPair(s, k)
    decreases |s|
  {
    if k == 0 {
      assert s[..k] == [] && s[k..] == s;
    } else if High(s[0]) {
      if k == 1 {
        assert s[..k] == [s[0]] && s[k..][0] == s[1];
      } else {
        CutWellFormed(s[2..], k - 2);
        assert s[..k][2..] == s[2..][..k - 2];
        assert s[k..] == s[2..][k - 2..];
      }
    } else {
      CutWellFormed(s[1..], k - 1);
      assert s[..k][1..] == s[1..][..k - 1];
      assert s[k..] == s[1..][k - 1..];
    }
  }

  lemma {:induction false} ConcatWellFormed(s: Text, t: Text)
    requires WellFormed(s) && WellFormed(t)
    ensures WellFormed(s + t)
    decreases |s|
  {
    if s == [] {
      assert s + t == t;
    } else if High(s[0]) {
      ConcatWellFormed(s[2..], t);
      assert (s + t)[0] == s[0] && (s + t)[1] == s[1];
      assert (s + t)[2..] == s[2..] + t;
    } else {
      ConcatWellFormed(s[1..], t);
      assert (s + t)[0] == s[0];
      assert (s + t)[1..] == s[1..] + t;
    }
  }

  lemma {:induction false} LowAfterPairIsNotHigh(s: Text, k: nat)
    requires SplitsPair(s, k)
    ensures !SplitsPair(s, k - 1) && !SplitsPair(s, k + 1)
  {
    assert High(s[k - 1]) && Low(s[k]);
  }

  /** The safe prefix is well-formed, within the bound, and no longer prefix is both. */
  lemma SafePrefixIsLongest(value: Text, max: nat)
    requires WellFormed(value)
    ensures var p := SafePrefix(value, max);
      && p <= value && WellFormed(p) && |p| <= max
      && forall k: nat :: k <= |value| && k <= max && WellFormed(value[..k]) ==> k <= |p|
  {
    var p := SafePrefix(value, max);
    var end := Min(|value|, max);
    if SplitsPair(value, end) {
      LowAfterPairIsNotHigh(value, end);
    }
    CutWellFormed(value, |p|);
    assert p == value[..|p|];
    forall k: nat | k <= |value| && k <= max && WellFormed(value[..k])
      ensures k <= |p|
    {
      CutWellFormed(value, k);
    }
  }

  /** The safe suffix is well-formed, within the bound, and no longer suffix is both. */
  lemma SafeSuffixIsLongest(value: Text, max: nat)
    requires WellFormed(value)
    ensures var t := SafeSuffix(value, max);
      && |t| <= |value| && t == value[|value| - |t|..] && WellFormed(t) && |t| <= max
      && forall k: nat :: k <= |value| && |value| - k <= max && WellFormed(value[k..]) ==> |value| - k <= |t|
  {
    var t := SafeSuffix(value, max);
    var start := Max(0, |value| - max);
    if SplitsPair(value, start) {
      LowAfterPairIsNotHigh(value, start);
    }
    CutWellFormed(value, |value| - |t|);
    forall k: nat | k <= |value| && |value| - k <= max && WellFormed(value[k..])
      ensures |value| - k <= |t|
    {
      CutWellFormed(value, k);
    }
  }

  /** On arbitrary text, paired or not, the suffix respects every bound (a negative one
      counts as zero); the prefix respects its bound exactly when that is not negative. */
  lemma CutsRespectBound(value: Text, max: int)
    ensures |SafeSuffix(value, max)| <= Max(0, max)
    ensures |SafePrefix(value, max)| <= max <==> 0 <= max
  {}
}
