/**
 Which paths the deploy parser accepts (scripts/deploy_contract.py), said of the text they encode: UTF-8 is the
 encoding of Unicode scalar values, and a path is a list of components between slashes.
 */
module PathRules {
  import opened NameStatusParser

  /** Unicode scalar values: code points without the surrogates. */
  type Scalar = c: int | 0 <= c <= 0x10_FFFF && !(0xD800 <= c <= 0xDFFF)

  /** The UTF-8 form of one scalar value, by the table in section 3 of RFC 3629. */
  function Encode(c: Scalar): (bs: Bytes)
    ensures 1 <= |bs| <= 4
  {
    if c < 0x80 then [c]
    else if c < 0x800 then [0xC0 + c / 64, 0x80 + c % 64]
    else if c < 0x1_0000 then [0xE0 + c / 64 / 64, 0x80 + c / 64 % 64, 0x80 + c % 64]
    else [0xF0 + c / 64 / 64 / 64, 0x80 + c / 64 / 64 % 64, 0x80 + c / 64 % 64, 0x80 + c % 64]
  }

  function Encoded(cs: seq<Scalar>): Bytes {
    if cs == [] then [] else Encode(cs[0]) + Encoded(cs[1..])
  }

  /** The last six bits, and what stands before them. */
  lemma SixBits(high: nat, low: nat)
    requires low < 64
    ensures (64 * high + low) / 64 == high && (64 * high + low) % 64 == low
  {
  }

  lemma PairDecodes(a: Byte, b: Byte) returns (n: Scalar)
    requires 0xC2 <= a <= 0xDF && Continuation(b)
    ensures Encode(n) == [a, b]
  {
    SixBits(a - 0xC0, b - 0x80);
    n := 64 * (a - 0xC0) + (b - 0x80);
  }

  lemma TripleDecodes(a: Byte, b: Byte, c: Byte) returns (n: Scalar)
    requires 0xE0 <= a <= 0xEF && Continuation(b) && Continuation(c)
    requires (a == 0xE0 ==> b >= 0xA0) && (a == 0xED ==> b < 0xA0)
    ensures Encode(n) == [a, b, c]
  {
    var x := 64 * (a - 0xE0) + (b - 0x80);
    SixBits(a - 0xE0, b - 0x80);
    SixBits(x, c - 0x80);
    n := 64 * x + (c - 0x80);
  }

  lemma QuadDecodes(a: Byte, b: Byte, c: Byte, d: Byte) returns (n: Scalar)
    requires 0xF0 <= a <= 0xF4 && Continuation(b) && Continuation(c) && Continuation(d)
    requires (a == 0xF0 ==> b >= 0x90) && (a == 0xF4 ==> b < 0x90)
    ensures Encode(n) == [a, b, c, d]
  {
    var x := 64 * (a - 0xF0) + (b - 0x80);
    var y := 64 * x + (c - 0x80);
    SixBits(a - 0xF0, b - 0x80);
    SixBits(x, c - 0x80);
    SixBits(y, d - 0x80);
    n := 64 * y + (d - 0x80);
  }

  /** How long the first form of well-formed bytes is, and the value it stands for. */
  lemma FirstScalar(bs: Bytes) returns (c: Scalar)
    requires bs != [] && Utf8(bs)
    ensures |Encode(c)| <= |bs| && bs[..|Encode(c)|] == Encode(c) && Utf8(bs[|Encode(c)|..])
  {
    if bs[0] < 0x80 {
      c := bs[0];
    } else if 0xC2 <= bs[0] <= 0xDF {
      c := PairDecodes(bs[0], bs[1]);
    } else if 0xE0 <= bs[0] <= 0xEF {
      c := TripleDecodes(bs[0], bs[1], bs[2]);
    } else {
      c := QuadDecodes(bs[0], bs[1], bs[2], bs[3]);
    }
  }

  lemma {:induction false} Utf8IsEncoded(bs: Bytes) returns (cs: seq<Scalar>)
    requires Utf8(bs)
    ensures Encoded(cs) == bs
    decreases |bs|
  {
    if bs == [] {
      cs := [];
    } else {
      var c := FirstScalar(bs);
      hide Encode, Utf8;
      var rest := Utf8IsEncoded(bs[|Encode(c)|..]);
      cs := [c] + rest;
      assert cs[1..] == rest;
      assert bs == bs[..|Encode(c)|] + bs[|Encode(c)|..];
    }
  }

  lemma ShortLeads(c: Scalar)
    ensures var a := Encode(c)[0];
            && (|Encode(c)| == 1 <==> a < 0x80) && (|Encode(c)| == 2 <==> 0xC2 <= a <= 0xDF)
            && (|Encode(c)| == 3 <==> 0xE0 <= a <= 0xEF) && (|Encode(c)| == 4 <==> 0xF0 <= a <= 0xF4)
    ensures forall i :: 1 <= i < |Encode(c)| ==> Continuation(Encode(c)[i])
    ensures |Encode(c)| == 3 ==>
              (Encode(c)[0] == 0xE0 ==> Encode(c)[1] >= 0xA0) && (Encode(c)[0] == 0xED ==> Encode(c)[1] < 0xA0)
    ensures |Encode(c)| == 4 ==>
              (Encode(c)[0] == 0xF0 ==> Encode(c)[1] >= 0x90) && (Encode(c)[0] == 0xF4 ==> Encode(c)[1] < 0x90)
  {
  }

  lemma EncodingStaysUtf8(c: Scalar, rest: Bytes)
    requires Utf8(rest)
    ensures Utf8(Encode(c) + rest)
  {
    ShortLeads(c);
    var n := |Encode(c)|;
    var bs := Encode(c) + rest;
    assert bs[n..] == rest;
    assert forall i :: 0 <= i < n ==> bs[i] == Encode(c)[i];
    hide Encode;
  }

  lemma {:induction false} EncodedIsUtf8(cs: seq<Scalar>)
    ensures Utf8(Encoded(cs))
  {
    if cs != [] {
      hide Encode, Utf8;
      EncodedIsUtf8(cs[1..]);
      EncodingStaysUtf8(cs[0], Encoded(cs[1..]));
    }
  }

  /** The bytes the parser takes for UTF-8 are exactly the encodings of scalar values. */
  lemma Utf8ExactlyWhenEncoded(bs: Bytes)
    ensures Utf8(bs) <==> exists cs :: Encoded(cs) == bs
  {
    if Utf8(bs) {
      var cs := Utf8IsEncoded(bs);
    }
    if cs :| Encoded(cs) == bs {
      EncodedIsUtf8(cs);
    }
  }

  // ----- Components -----

  function FirstSlash(p: Bytes): (i: nat)
    ensures i <= |p| && (i < |p| ==> p[i] == 47) && 47 !in p[..i]
  {
    if p == [] || p[0] == 47 then 0 else 1 + FirstSlash(p[1..])
  }

  /** The components between the slashes, empty ones included. */
  function Parts(p: Bytes): seq<Bytes>
    decreases |p|
  {
    var i := FirstSlash(p);
    if i == |p| then [p] else [p[..i]] + Parts(p[i + 1..])
  }

  lemma DotsInOnePart(p: Bytes)
    requires 47 !in p
    ensures HasParent(p) <==> p == [46, 46]
  {
    assert forall j :: 0 <= j < |p| ==> p[j] != 47;
    if p == [46, 46] {
      assert ParentAt(p, 0);
    }
  }

  lemma DotsInTwoParts(p: Bytes, i: nat)
    requires i < |p| && p[i] == 47 && 47 !in p[..i]
    ensures HasParent(p) <==> p[..i] == [46, 46] || HasParent(p[i + 1..])
  {
    var rest := p[i + 1..];
    assert forall j :: 0 <= j < i ==> p[j] != 47 by {
      assert forall j :: 0 <= j < i ==> p[j] == p[..i][j];
    }
    forall k | ParentAt(p, k)
      ensures p[..i] == [46, 46] || ParentAt(rest, k - i - 1)
    {
      if k <= i {
        assert k == 0 && i == 2;
        assert p[..i] == [p[0], p[1]];
      }
    }
    if k :| ParentAt(rest, k) {
      assert ParentAt(p, i + 1 + k);
    }
    if p[..i] == [46, 46] {
      assert p[0] == p[..i][0] && p[1] == p[..i][1];
      assert ParentAt(p, 0);
    }
  }

  lemma PartsUnfold(p: Bytes)
    ensures Parts(p) == if 47 !in p then [p] else [p[..FirstSlash(p)]] + Parts(p[FirstSlash(p) + 1..])
  {
    var i := FirstSlash(p);
    assert i < |p| ==> p[i] in p;
    assert p[..|p|] == p;
    hide FirstSlash;
  }

  lemma {:induction false} ParentIsAPart(p: Bytes)
    ensures HasParent(p) <==> [46, 46] in Parts(p)
    decreases |p|
  {
    hide HasParent, Parts, FirstSlash;
    PartsUnfold(p);
    if 47 !in p {
      DotsInOnePart(p);
    } else {
      var i := FirstSlash(p);
      var rest := p[i + 1..];
      ParentIsAPart(rest);
      DotsInTwoParts(p, i);
      InFront([46, 46], p[..i], Parts(rest));
    }
  }

  lemma InFront(x: Bytes, y: Bytes, ys: seq<Bytes>)
    ensures x in [y] + ys <==> x == y || x in ys
  {
  }

  /** A path is accepted exactly when it encodes some text that is not empty, not absolute and never goes up. */
  lemma PathOkExactlyWhen(p: Bytes)
    ensures PathOk(p) <==>
            (exists cs :: Encoded(cs) == p && cs != [] && cs[0] != 47) && [46, 46] !in Parts(p)
  {
    Utf8ExactlyWhenEncoded(p);
    ParentIsAPart(p);
    forall cs | Encoded(cs) == p
      ensures cs == [] <==> p == []
      ensures cs != [] ==> (cs[0] == 47 <==> p[0] == 47)
    {
      if cs != [] {
        ShortLeads(cs[0]);
        assert p[0] == Encode(cs[0])[0];
      }
    }
    hide Utf8, HasParent, Parts, Encode, Encoded;
  }

  /** A record has one path for A, B, D, M, T, U, X, and two for R or C followed by digits; nothing else is known. */
  lemma StatusExactlyWhen(status: Bytes)
    ensures PathCount(status) == 1 <==>
            exists c: char :: c in "ABDMTUX" && status == [c as int]
    ensures PathCount(status) == 2 <==>
            |status| >= 2 && (status[0] == 'R' as int || status[0] == 'C' as int)
            && forall i :: 1 <= i < |status| ==> '0' as int <= status[i] <= '9' as int
    ensures PathCount(status) <= 2
  {
    if OnePathStatus(status) {
      var c := status[0] as char;
      assert "ABDMTUX"[0] == 'A' && "ABDMTUX"[1] == 'B' && "ABDMTUX"[2] == 'D' && "ABDMTUX"[3] == 'M'
             && "ABDMTUX"[4] == 'T' && "ABDMTUX"[5] == 'U' && "ABDMTUX"[6] == 'X';
      assert c in "ABDMTUX" && status == [c as int];
    }
  }
}
