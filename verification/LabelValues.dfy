/** Label values as bytes, and the terminator encoding that is fed to the hasher. */
module LabelEncoding {
  import opened Integers

  newtype Byte = x: int | 0 <= x < 256

  newtype Hash = x: int | 0 <= x < TWO_64

  type Bytes = seq<Byte>

  /** labelsSeparator */
  const SEPARATOR: Byte := 255

  /** The values of the named labels; a missing label has the empty value. */
  function LabelValues(labels: map<string, Bytes>, names: seq<string>): (r: seq<Bytes>)
    ensures |r| == |names|
    ensures forall i :: 0 <= i < |names| ==> r[i] == if names[i] in labels then labels[names[i]] else []
  {
    if names == [] then []
    else [if names[0] in labels then labels[names[0]] else []] + LabelValues(labels, names[1..])
  }

  function Encode(values: seq<Bytes>): Bytes {
    if values == [] then [] else values[0] + [SEPARATOR] + Encode(values[1..])
  }

  /** The hasher is fed value by value; `hash` stands for FNV-1a over all bytes written. */
  method HashLabelValues(hash: Bytes -> Hash, labelValues: seq<Bytes>) returns (h: Hash)
    ensures h == hash(Encode(labelValues))
  {
    var written: Bytes := [];
    var i := 0;
    while i < |labelValues|
      invariant 0 <= i <= |labelValues|
      invariant written + Encode(labelValues[i..]) == Encode(labelValues)
    {
      assert labelValues[i..][1..] == labelValues[i + 1..];
      written := written + labelValues[i];
      written := written + [SEPARATOR];
      i := i + 1;
    }
    assert written == Encode(labelValues);
    return hash(written);
  }

  // ---------- When the encoding can be decoded ----------

  predicate Clean(v: Bytes) {
    SEPARATOR !in v
  }

  lemma {:induction false} EncodeAppend(a: seq<Bytes>, b: seq<Bytes>)
    ensures Encode(a + b) == Encode(a) + Encode(b)
  {
    if a == [] {
      assert a + b == b;
    } else {
      assert (a + b)[0] == a[0] && (a + b)[1..] == a[1..] + b;
      EncodeAppend(a[1..], b);
    }
  }

  lemma FirstValue(v: Bytes, r: Bytes, w: Bytes, s: Bytes)
    requires Clean(v) && Clean(w) && v + [SEPARATOR] + r == w + [SEPARATOR] + s
    ensures v == w && r == s
  {
    var whole := v + [SEPARATOR] + r;
    assert whole[|v|] == SEPARATOR && whole[|w|] == SEPARATOR;
    assert forall k :: 0 <= k < |v| ==> whole[k] == v[k] != SEPARATOR;
    assert forall k :: 0 <= k < |w| ==> whole[k] == w[k] != SEPARATOR;
    assert whole[..|v|] == v && whole[..|w|] == w;
    assert whole[|v| + 1..] == r && whole[|w| + 1..] == s;
  }

  /** Lists of values without the byte 255, as in all UTF-8 text, never collide. */
  lemma {:induction false} EncodeInjective(a: seq<Bytes>, b: seq<Bytes>)
    requires forall i :: 0 <= i < |a| ==> Clean(a[i])
    requires forall i :: 0 <= i < |b| ==> Clean(b[i])
    requires Encode(a) == Encode(b)
    ensures a == b
  {
    if a != [] && b != [] {
      FirstValue(a[0], Encode(a[1..]), b[0], Encode(b[1..]));
      EncodeInjective(a[1..], b[1..]);
      assert a == [a[0]] + a[1..] && b == [b[0]] + b[1..];
    }
  }

  /** No other list of the same length is encoded alike. */
  ghost predicate UniquelyEncoded(xs: seq<Bytes>) {
    forall ys: seq<Bytes> :: |ys| == |xs| && Encode(ys) == Encode(xs) ==> ys == xs
  }

  lemma EncodePair(a: Bytes, b: Bytes)
    ensures Encode([a, b]) == a + [SEPARATOR] + b + [SEPARATOR]
  {
    assert [a, b][1..] == [b];
    assert Encode([b]) == b + [SEPARATOR] + Encode([]);
  }

  /** A separator inside one of two neighbouring values can be moved between them. */
  lemma AmbiguousPair(xs: seq<Bytes>, i: nat, a: Bytes, b: Bytes)
    requires i + 1 < |xs| && (a != xs[i] || b != xs[i + 1])
    requires a + [SEPARATOR] + b == xs[i] + [SEPARATOR] + xs[i + 1]
    ensures !UniquelyEncoded(xs)
  {
    var ys := xs[..i] + [a, b] + xs[i + 2..];
    assert xs == xs[..i] + [xs[i], xs[i + 1]] + xs[i + 2..];
    EncodeAppend(xs[..i] + [a, b], xs[i + 2..]);
    EncodeAppend(xs[..i], [a, b]);
    EncodeAppend(xs[..i] + [xs[i], xs[i + 1]], xs[i + 2..]);
    EncodeAppend(xs[..i], [xs[i], xs[i + 1]]);
    EncodePair(a, b);
    EncodePair(xs[i], xs[i + 1]);
    assert ys[i] == a && ys[i + 1] == b;
  }

  lemma SplitAtSeparator(v: Bytes) returns (a: Bytes, b: Bytes)
    requires !Clean(v)
    ensures v == a + [SEPARATOR] + b
  {
    var k :| 0 <= k < |v| && v[k] == SEPARATOR;
    a, b := v[..k], v[k + 1..];
  }

  lemma SeparatorMakesAmbiguous(xs: seq<Bytes>, i: nat)
    requires i < |xs| && |xs| > 1 && !Clean(xs[i])
    ensures !UniquelyEncoded(xs)
  {
    var a, b := SplitAtSeparator(xs[i]);
    if i + 1 < |xs| {
      var c := b + [SEPARATOR] + xs[i + 1];
      assert a + [SEPARATOR] + c == xs[i] + [SEPARATOR] + xs[i + 1];
      AmbiguousPair(xs, i, a, c);
    } else {
      var c := xs[i - 1] + [SEPARATOR] + a;
      assert c + [SEPARATOR] + b == xs[i - 1] + [SEPARATOR] + xs[i];
      AmbiguousPair(xs, i - 1, c, b);
    }
  }

  lemma ShortIsUnique(xs: seq<Bytes>)
    requires |xs| <= 1
    ensures UniquelyEncoded(xs)
  {
    forall ys: seq<Bytes> | |ys| == |xs| && Encode(ys) == Encode(xs) ensures ys == xs {
      if |xs| == 1 {
        assert Encode(xs) == xs[0] + [SEPARATOR] + Encode([]) && Encode(ys) == ys[0] + [SEPARATOR] + Encode([]);
        assert Encode(xs)[..|xs[0]|] == xs[0] && Encode(ys)[..|ys[0]|] == ys[0];
      }
    }
  }

  lemma {:induction false} SeparatorCount(xs: seq<Bytes>)
    ensures multiset(Encode(xs))[SEPARATOR] >= |xs|
    ensures multiset(Encode(xs))[SEPARATOR] == |xs| <==> forall i :: 0 <= i < |xs| ==> Clean(xs[i])
  {
    if xs != [] {
      SeparatorCount(xs[1..]);
      assert xs == [xs[0]] + xs[1..];
      assert multiset(xs[0])[SEPARATOR] == 0 <==> Clean(xs[0]);
    }
  }

  /** The exact condition under which a metric's values are told apart from all others of the
      same collector: it has a single label, or no value contains the byte 255. */
  lemma UniquelyEncodedExactly(xs: seq<Bytes>)
    ensures UniquelyEncoded(xs) <==> |xs| <= 1 || forall i :: 0 <= i < |xs| ==> Clean(xs[i])
  {
    if |xs| <= 1 {
      ShortIsUnique(xs);
    } else if i :| 0 <= i < |xs| && !Clean(xs[i]) {
      SeparatorMakesAmbiguous(xs, i);
    } else {
      forall ys: seq<Bytes> | |ys| == |xs| && Encode(ys) == Encode(xs) ensures ys == xs {
        SeparatorCount(xs);
        SeparatorCount(ys);
        EncodeInjective(xs, ys);
      }
    }
  }
}
