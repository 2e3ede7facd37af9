/**
  UTF-8 (RFC 3629): the encoder, and a strict decoder that refuses what is cut short,
  overlong, a surrogate or out of range.
  */
module Utf8 {
  import opened Options

  type Byte = b: nat | b < 0x100

  /** 10xxxxxx */
  predicate IsContinuation(b: Byte) {
    0x80 <= b < 0xC0
  }

  function Tail(n: nat): Byte {
    0x80 + n % 0x40
  }

  /** Section 3 of RFC 3629. */
  function EncodeChar(c: char): (bytes: seq<Byte>)
    ensures 1 <= |bytes| <= 4 && !IsContinuation(bytes[0])
    ensures forall i :: 0 < i < |bytes| ==> IsContinuation(bytes[i])
  {
    var n := c as nat;
    if n < 0x80 then [n]
    else if n < 0x800 then [0xC0 + n / 0x40, Tail(n)]
    else if n < 0x1_0000 then [0xE0 + n / 0x1000, Tail(n / 0x40), Tail(n)]
    else [0xF0 + n / 0x4_0000, Tail(n / 0x1000), Tail(n / 0x40), Tail(n)]
  }

  function Encode(s: string): seq<Byte> {
    if s == "" then [] else EncodeChar(s[0]) + Encode(s[1..])
  }

  predicate IsScalar(n: int) {
    0 <= n < 0xD800 || 0xE000 <= n < 0x11_0000
  }

  /** How many bytes a first byte announces; 0 for a byte that cannot be first. */
  function Announced(b: Byte): nat {
    if b < 0x80 then 1
    else if 0xC2 <= b < 0xE0 then 2
    else if 0xE0 <= b < 0xF0 then 3
    else if 0xF0 <= b < 0xF5 then 4
    else 0
  }

  /** The six low bits of a continuation byte. */
  function Low(b: int): int {
    b - 0x80
  }

  /** The number that `k` bytes stand for. */
  function Number(bytes: seq<Byte>, k: nat): int
    requires 1 <= k <= 4 && k <= |bytes|
  {
    var b: int := bytes[0];
    if k == 1 then b
    else if k == 2 then (b - 0xC0) * 0x40 + Low(bytes[1])
    else if k == 3 then (b - 0xE0) * 0x1000 + Low(bytes[1]) * 0x40 + Low(bytes[2])
    else (b - 0xF0) * 0x4_0000 + Low(bytes[1]) * 0x1000 + Low(bytes[2]) * 0x40 + Low(bytes[3])
  }

  /** The least number that needs `k` bytes. */
  function Least(k: nat): nat {
    if k <= 1 then 0 else if k == 2 then 0x80 else if k == 3 then 0x800 else 0x1_0000
  }

  /** The first character and its length. */
  function DecodeChar(bytes: seq<Byte>): (r: Option<(char, nat)>)
    requires bytes != []
    ensures r.Some? ==> 1 <= r.value.1 <= |bytes|
  {
    var k := Announced(bytes[0]);
    if k == 0 || |bytes| < k || exists i :: 0 < i < k && !IsContinuation(bytes[i]) then None
    else
      var n := Number(bytes, k);
      if Least(k) <= n && IsScalar(n) then Some((n as char, k)) else None
  }

  /** `s` and then the text, if there is one. */
  function With(s: string, text: Option<string>): Option<string> {
    match text
    case None => None
    case Some(t) => Some(s + t)
  }

  /** Strict decoding; `None` is the UnicodeDecodeError. */
  function Decode(bytes: seq<Byte>): Option<string>
    decreases |bytes|
  {
    if bytes == [] then Some("")
    else match DecodeChar(bytes)
      case None => None
      case Some(first) => With([first.0], Decode(bytes[first.1..]))
  }

  // ---------- Decoding inverts encoding ----------

  lemma NumberOfEncoded(c: char)
    ensures var bytes := EncodeChar(c);
      Announced(bytes[0]) == |bytes| && Number(bytes, |bytes|) == c as int && Least(|bytes|) <= c as int
  {
    var n := c as nat;
    if n < 0x80 {
    } else if n < 0x800 {
      assert n == (n / 0x40) * 0x40 + n % 0x40;
    } else if n < 0x1_0000 {
      assert n / 0x40 == (n / 0x1000) * 0x40 + n / 0x40 % 0x40;
    } else {
      assert n / 0x1000 == (n / 0x4_0000) * 0x40 + n / 0x1000 % 0x40;
      assert n / 0x40 == (n / 0x1000) * 0x40 + n / 0x40 % 0x40;
    }
  }

  lemma DecodesFirst(c: char, rest: seq<Byte>)
    ensures DecodeChar(EncodeChar(c) + rest) == Some((c, |EncodeChar(c)|))
  {
    var bytes := EncodeChar(c);
    NumberOfEncoded(c);
    assert forall i :: 0 <= i < |bytes| ==> (bytes + rest)[i] == bytes[i];
    assert Number(bytes + rest, |bytes|) == Number(bytes, |bytes|);
    assert IsScalar(c as nat);
  }

  lemma DecodesCons(c: char, rest: seq<Byte>)
    ensures Decode(EncodeChar(c) + rest) == With([c], Decode(rest))
  {
    DecodesFirst(c, rest);
    assert (EncodeChar(c) + rest)[|EncodeChar(c)|..] == rest;
  }

  lemma WithTwice(c: char, s: string, text: Option<string>)
    ensures With([c], With(s, text)) == With([c] + s, text)
  {
    if text.Some? {
      assert [c] + (s + text.value) == [c] + s + text.value;
    }
  }

  /** What was encoded decodes to itself, and what follows it decodes on its own. */
  lemma {:induction false} DecodeInvertsEncode(s: string, rest: seq<Byte>)
    ensures Decode(Encode(s) + rest) == With(s, Decode(rest))
  {
    if s == "" {
      assert Encode(s) + rest == rest;
      assert Decode(rest).Some? ==> "" + Decode(rest).value == Decode(rest).value;
    } else {
      var more := Encode(s[1..]) + rest;
      assert Encode(s) + rest == EncodeChar(s[0]) + more;
      DecodesCons(s[0], more);
      DecodeInvertsEncode(s[1..], rest);
      WithTwice(s[0], s[1..], Decode(rest));
      assert [s[0]] + s[1..] == s;
    }
  }

  lemma LastSix(high: nat, low: nat)
    requires low < 0x40
    ensures (high * 0x40 + low) / 0x40 == high && (high * 0x40 + low) % 0x40 == low
  {}

  lemma SixByEight(n: nat)
    ensures n / 0x1000 == n / 0x40 / 0x40 && n / 0x4_0000 == n / 0x1000 / 0x40
  {}

  lemma TwoBytes(bytes: seq<Byte>)
    requires |bytes| == 2 && Announced(bytes[0]) == 2 && IsContinuation(bytes[1])
    requires Least(2) <= Number(bytes, 2) && IsScalar(Number(bytes, 2))
    ensures EncodeChar(Number(bytes, 2) as char) == bytes
  {
    LastSix(bytes[0] - 0xC0, bytes[1] - 0x80);
  }

  lemma ThreeBytes(bytes: seq<Byte>)
    requires |bytes| == 3 && Announced(bytes[0]) == 3 && IsContinuation(bytes[1]) && IsContinuation(bytes[2])
    requires Least(3) <= Number(bytes, 3) && IsScalar(Number(bytes, 3))
    ensures EncodeChar(Number(bytes, 3) as char) == bytes
  {
    var high := Low(bytes[0] - 0x60) * 0x40 + Low(bytes[1]);
    LastSix(high, bytes[2] - 0x80);
    LastSix(bytes[0] - 0xE0, bytes[1] - 0x80);
    SixByEight(Number(bytes, 3));
  }

  lemma FourBytes(bytes: seq<Byte>)
    requires |bytes| == 4 && Announced(bytes[0]) == 4 && forall i :: 0 < i < 4 ==> IsContinuation(bytes[i])
    requires Least(4) <= Number(bytes, 4) && IsScalar(Number(bytes, 4))
    ensures EncodeChar(Number(bytes, 4) as char) == bytes
  {
    var high := Low(bytes[0] - 0x70) * 0x40 + Low(bytes[1]);
    var mid := high * 0x40 + Low(bytes[2]);
    LastSix(mid, bytes[3] - 0x80);
    LastSix(high, bytes[2] - 0x80);
    LastSix(bytes[0] - 0xF0, bytes[1] - 0x80);
    SixByEight(Number(bytes, 4));
  }

  /** A first character that decodes is spelt as the encoder spells it: nothing overlong. */
  lemma DecodedIsEncoded(bytes: seq<Byte>)
    requires bytes != [] && DecodeChar(bytes).Some?
    ensures EncodeChar(DecodeChar(bytes).value.0) == bytes[..DecodeChar(bytes).value.1]
  {
    var k := Announced(bytes[0]);
    var first := bytes[..k];
    assert forall i :: 0 < i < k ==> IsContinuation(bytes[i]) && first[i] == bytes[i];
    assert Number(first, k) == Number(bytes, k);
    if k == 2 {
      TwoBytes(first);
    } else if k == 3 {
      ThreeBytes(first);
    } else if k == 4 {
      FourBytes(first);
    }
  }

  /** Bytes decode to a text exactly when they are its encoding. */
  lemma {:induction false} DecodesIffEncoded(bytes: seq<Byte>, s: string)
    ensures Decode(bytes) == Some(s) <==> bytes == Encode(s)
    decreases |bytes|
  {
    RoundTrip(s);
    if Decode(bytes) == Some(s) && bytes != [] {
      var first := DecodeChar(bytes).value;
      DecodedIsEncoded(bytes);
      var rest := Decode(bytes[first.1..]).value;
      DecodesIffEncoded(bytes[first.1..], rest);
      assert s == [first.0] + rest && s[1..] == rest;
      assert bytes == bytes[..first.1] + bytes[first.1..];
    }
  }

  lemma RoundTrip(s: string)
    ensures Decode(Encode(s)) == Some(s)
  {
    DecodeInvertsEncode(s, []);
    assert Encode(s) + [] == Encode(s) && s + "" == s;
  }

  lemma {:induction false} EncodeConcat(s: string, t: string)
    ensures Encode(s + t) == Encode(s) + Encode(t)
  {
    if s == "" {
      assert s + t == t;
    } else {
      assert (s + t)[1..] == s[1..] + t;
      EncodeConcat(s[1..], t);
    }
  }

  // ---------- A text cut short ----------

  /** A cut after `n` bytes leaves whole characters. */
  predicate AtBoundary(bytes: seq<Byte>, n: nat)
    requires n <= |bytes|
  {
    n == |bytes| || !IsContinuation(bytes[n])
  }

  lemma CutCharFails(c: char, k: nat)
    requires 0 < k < |EncodeChar(c)|
    ensures Decode(EncodeChar(c)[..k]) == None
  {
    NumberOfEncoded(c);
    assert EncodeChar(c)[..k][0] == EncodeChar(c)[0];
  }

  lemma EncodedStartsAtBoundary(s: string)
    ensures AtBoundary(Encode(s), 0)
  {}

  /** What is left of an encoded text decodes exactly when the cut does not fall before a
      continuation byte, and then to a prefix of the text. */
  lemma {:induction false} CutDecodesIff(s: string, cut: seq<Byte>)
    requires cut <= Encode(s)
    ensures Decode(cut).Some? <==> AtBoundary(Encode(s), |cut|)
    ensures Decode(cut).Some? ==> Decode(cut).value <= s && Encode(Decode(cut).value) == cut
    decreases |s|, 1
  {
    if cut == [] {
      EncodedStartsAtBoundary(s);
    } else {
      var first, rest := EncodeChar(s[0]), Encode(s[1..]);
      if |cut| < |first| {
        CutCharFails(s[0], |cut|);
        assert cut == first[..|cut|] && Encode(s)[|cut|] == first[|cut|];
      } else {
        CutAfterFirst(s, cut);
      }
    }
  }

  lemma {:induction false} CutAfterFirst(s: string, cut: seq<Byte>)
    requires s != "" && cut <= Encode(s) && |cut| >= |EncodeChar(s[0])|
    ensures Decode(cut).Some? <==> AtBoundary(Encode(s), |cut|)
    ensures Decode(cut).Some? ==> Decode(cut).value <= s && Encode(Decode(cut).value) == cut
    decreases |s|, 0
  {
    var first, rest := EncodeChar(s[0]), Encode(s[1..]);
    var more := cut[|first|..];
    assert cut == first + more && more == rest[..|more|];
    CutDecodesIff(s[1..], more);
    DecodesCons(s[0], more);
    assert |cut| < |Encode(s)| ==> Encode(s)[|cut|] == rest[|more|];
    if Decode(more).Some? {
      var t := Decode(more).value;
      assert Decode(cut) == Some([s[0]] + t) && ([s[0]] + t)[1..] == t;
      assert s == [s[0]] + s[1..];
    }
  }
}
