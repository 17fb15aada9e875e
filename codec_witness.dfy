/** A codec that meets `SoundCodec`: claims made of signable values are
    written as a string from which they can be read back, so the lemmas that
    assume a sound codec are not vacuous. */
module CodecWitness {
  import opened Wrappers
  import opened Documents
  import opened Crypto

  /** A string written so that its end can be found: each character is
      preceded by 'a', and 'b' closes it. */
  function EncStr(s: string): string {
    if s == [] then "b" else ['a', s[0]] + EncStr(s[1..])
  }

  /** A natural number in unary, closed by 'b'. */
  function EncNat(n: nat): string {
    if n == 0 then "b" else "a" + EncNat(n - 1)
  }

  /** A character naming the kind of value (and the sign of an integer). */
  function Tag(v: Value): char {
    match v
    case VNull => 'n'
    case VBool(b) => if b then 't' else 'f'
    case VInt(i) => if i >= 0 then 'p' else 'm'
    case VStr(_) => 's'
    case _ => 'x'
  }

  /** What follows the tag: the magnitude of an integer, the characters of a
      string, nothing for the other kinds. */
  function Body(v: Value): string {
    match v
    case VInt(i) => if i >= 0 then EncNat(i) else EncNat(-i)
    case VStr(s) => EncStr(s)
    case _ => ""
  }

  function EncValue(v: Value): string {
    [Tag(v)] + Body(v)
  }

  /** Some key of a non-empty document. */
  ghost function PickKey(m: Doc): (k: string)
    requires m != map[]
    ensures k in m
  {
    var k :| k in m; k
  }

  /** The key-value pairs one after the other, each opened by 'k'; 'e' ends
      the list. */
  ghost function Encode(m: Doc): string
    decreases |m.Keys|
  {
    if m == map[] then "e"
    else
      var k := PickKey(m);
      assert (m - {k}).Keys < m.Keys;
      "k" + (EncStr(k) + (EncValue(m[k]) + Encode(m - {k})))
  }

  /** The signable claims a string is the encoding of, if any. */
  ghost function Decode(s: string): (r: Option<Doc>)
    ensures r.Some? ==> Signable(r.value) && Encode(r.value) == s
    ensures (exists m :: Signable(m) && Encode(m) == s) ==> r.Some?
  {
    if exists m :: Signable(m) && Encode(m) == s then
      var m :| Signable(m) && Encode(m) == s; Some(m)
    else None
  }

  lemma DropPrefix(p: string, a: string, b: string)
    requires p + a == p + b
    ensures a == b
  {
    assert a == (p + a)[|p|..];
    assert b == (p + b)[|p|..];
  }

  lemma {:induction false} EncStrPrefix(s1: string, x1: string, s2: string, x2: string)
    requires EncStr(s1) + x1 == EncStr(s2) + x2
    ensures s1 == s2 && x1 == x2
  {
    var l, r := EncStr(s1) + x1, EncStr(s2) + x2;
    assert l[0] == (if s1 == [] then 'b' else 'a');
    assert r[0] == (if s2 == [] then 'b' else 'a');
    if s1 == [] {
      DropPrefix("b", x1, x2);
    } else {
      assert l[1] == s1[0] && r[1] == s2[0];
      assert l == [l[0], l[1]] + (EncStr(s1[1..]) + x1);
      assert r == [r[0], r[1]] + (EncStr(s2[1..]) + x2);
      DropPrefix([l[0], l[1]], EncStr(s1[1..]) + x1, EncStr(s2[1..]) + x2);
      EncStrPrefix(s1[1..], x1, s2[1..], x2);
      assert s1 == [s1[0]] + s1[1..] && s2 == [s2[0]] + s2[1..];
    }
  }

  lemma {:induction false} EncNatPrefix(n1: nat, x1: string, n2: nat, x2: string)
    requires EncNat(n1) + x1 == EncNat(n2) + x2
    ensures n1 == n2 && x1 == x2
  {
    var l, r := EncNat(n1) + x1, EncNat(n2) + x2;
    assert l[0] == (if n1 == 0 then 'b' else 'a');
    assert r[0] == (if n2 == 0 then 'b' else 'a');
    if n1 == 0 {
      DropPrefix("b", x1, x2);
    } else {
      assert l == "a" + (EncNat(n1 - 1) + x1);
      assert r == "a" + (EncNat(n2 - 1) + x2);
      DropPrefix("a", EncNat(n1 - 1) + x1, EncNat(n2 - 1) + x2);
      EncNatPrefix(n1 - 1, x1, n2 - 1, x2);
    }
  }

  /** On signable values the tag tells the kind, and the sign of an integer. */
  lemma TagKind(v1: Value, v2: Value)
    requires SignableValue(v1) && SignableValue(v2) && Tag(v1) == Tag(v2)
    ensures v1.VNull? <==> v2.VNull?
    ensures v1.VBool? ==> v1 == v2
    ensures v1.VInt? <==> v2.VInt?
    ensures v1.VInt? ==> (v1.i >= 0 <==> v2.i >= 0)
    ensures v1.VStr? <==> v2.VStr?
  {
  }

  lemma EncValuePrefix(v1: Value, x1: string, v2: Value, x2: string)
    requires SignableValue(v1) && SignableValue(v2)
    requires EncValue(v1) + x1 == EncValue(v2) + x2
    ensures v1 == v2 && x1 == x2
  {
    var y1, y2 := Body(v1) + x1, Body(v2) + x2;
    assert EncValue(v1) + x1 == [Tag(v1)] + y1;
    assert EncValue(v2) + x2 == [Tag(v2)] + y2;
    assert Tag(v1) == ([Tag(v1)] + y1)[0];
    assert Tag(v2) == ([Tag(v2)] + y2)[0];
    DropPrefix([Tag(v1)], y1, y2);
    TagKind(v1, v2);
    match v1
    case VNull =>
      assert y1 == x1 && y2 == x2;
    case VBool(_) =>
      assert y1 == x1 && y2 == x2;
    case VInt(i) =>
      var j := v2.i;
      if i >= 0 {
        assert y1 == EncNat(i) + x1 && y2 == EncNat(j) + x2;
        EncNatPrefix(i, x1, j, x2);
      } else {
        assert y1 == EncNat(-i) + x1 && y2 == EncNat(-j) + x2;
        EncNatPrefix(-i, x1, -j, x2);
      }
    case VStr(t) =>
      assert y1 == EncStr(t) + x1 && y2 == EncStr(v2.s) + x2;
      EncStrPrefix(t, x1, v2.s, x2);
  }

  lemma EncodeUnfold(m: Doc)
    requires m != map[]
    ensures (m - {PickKey(m)}).Keys < m.Keys
    ensures Encode(m) == "k" + (EncStr(PickKey(m)) + (EncValue(m[PickKey(m)]) + Encode(m - {PickKey(m)})))
  {
    var k := PickKey(m);
    assert (m - {k}).Keys == m.Keys - {k};
  }

  /** A document is its key dropped and put back. */
  lemma PutBack(m: Doc, k: string)
    requires k in m
    ensures m == (m - {k})[k := m[k]]
  {
  }

  /** Different signable claims have different encodings. */
  lemma {:induction false} EncodeInjective(m1: Doc, m2: Doc)
    requires Signable(m1) && Signable(m2)
    requires Encode(m1) == Encode(m2)
    ensures m1 == m2
    decreases |m1.Keys|
  {
    assert Encode(m1)[0] == (if m1 == map[] then 'e' else 'k') by {
      if m1 != map[] { EncodeUnfold(m1); }
    }
    assert Encode(m2)[0] == (if m2 == map[] then 'e' else 'k') by {
      if m2 != map[] { EncodeUnfold(m2); }
    }
    if m1 != map[] {
      var k1, k2 := PickKey(m1), PickKey(m2);
      var r1, r2 := m1 - {k1}, m2 - {k2};
      EncodeUnfold(m1);
      EncodeUnfold(m2);
      var t1 := EncValue(m1[k1]) + Encode(r1);
      var t2 := EncValue(m2[k2]) + Encode(r2);
      DropPrefix("k", EncStr(k1) + t1, EncStr(k2) + t2);
      EncStrPrefix(k1, t1, k2, t2);
      EncValuePrefix(m1[k1], Encode(r1), m2[k2], Encode(r2));
      EncodeInjective(r1, r2);
      PutBack(m1, k1);
      PutBack(m2, k2);
    }
  }

  lemma DecodeEncode(claims: Doc)
    requires Signable(claims)
    ensures Decode(Encode(claims)) == Some(claims)
  {
    var r := Decode(Encode(claims));
    assert r.Some?;
    EncodeInjective(r.value, claims);
  }

  /** `SoundCodec` can be met. */
  lemma SoundCodecSatisfiable()
    ensures SoundCodec(TokenCodec(m => Encode(m), s => Decode(s)))
  {
    forall claims | Signable(claims)
      ensures Decode(Encode(claims)) == Some(claims)
    {
      DecodeEncode(claims);
    }
  }
}
