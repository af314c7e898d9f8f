/** Unpadded standard base64 (sections 3.2 and 4 of RFC 4648). */
module Base64 {
  import opened Bytes
  import opened Options

  /** The standard alphabet: A-Z, a-z, 0-9, '+', '/'. */
  function Symbol(v: int): char
    requires 0 <= v < 64
  {
    if v < 26 then ('A' as int + v) as char
    else if v < 52 then ('a' as int + v - 26) as char
    else if v < 62 then ('0' as int + v - 52) as char
    else if v == 62 then '+' else '/'
  }

  /** A symbol's value, or -1 for a character outside the alphabet. */
  function SymbolValue(c: char): (v: int)
    ensures -1 <= v < 64
  {
    if 'A' <= c <= 'Z' then c as int - 'A' as int
    else if 'a' <= c <= 'z' then c as int - 'a' as int + 26
    else if '0' <= c <= '9' then c as int - '0' as int + 52
    else if c == '+' then 62
    else if c == '/' then 63
    else -1
  }

  lemma SymbolInverse(v: int)
    requires 0 <= v < 64
    ensures SymbolValue(Symbol(v)) == v
  {
  }

  lemma ValueInverse(c: char)
    requires SymbolValue(c) >= 0
    ensures Symbol(SymbolValue(c)) == c
  {
  }

  /** The ranks of the standard alphabet: upper-case letters from 0, lower-case ones from 26, digits from
      52, then plus and slash, each next letter or digit one more; the padding sign has none. */
  lemma Ranks(c: char)
    ensures SymbolValue('A') == 0 && SymbolValue('a') == 26 && SymbolValue('0') == 52
    ensures SymbolValue('+') == 62 && SymbolValue('/') == 63 && SymbolValue('=') == -1
    ensures 'A' <= c < 'Z' || 'a' <= c < 'z' || '0' <= c < '9' ==>
      SymbolValue((c as int + 1) as char) == SymbolValue(c) + 1
    ensures SymbolValue(c) >= 0 <==>
      'A' <= c <= 'Z' || 'a' <= c <= 'z' || '0' <= c <= '9' || c == '+' || c == '/'
  {
  }

  type Sextet = x: int | 0 <= x < 64

  /** The four six-bit groups of three bytes. */
  function Sextets(a: byte, b: byte, c: byte): (Sextet, Sextet, Sextet, Sextet)
  {
    var a, b, c := a as int, b as int, c as int;
    (a / 4, a % 4 * 16 + b / 16, b % 16 * 4 + c / 64, c % 64)
  }

  /** The three bytes of four six-bit groups. */
  function Octets(p: Sextet, q: Sextet, r: Sextet, t: Sextet): (byte, byte, byte)
  {
    ((p * 4 + q / 16) as byte, (q % 16 * 16 + r / 4) as byte, (r % 4 * 64 + t) as byte)
  }

  lemma OctetsInverse(a: byte, b: byte, c: byte)
    ensures var g := Sextets(a, b, c); Octets(g.0, g.1, g.2, g.3) == (a, b, c)
  {
    var q, r := a as int % 4 * 16 + b as int / 16, b as int % 16 * 4 + c as int / 64;
    assert q / 16 == a as int % 4 && q % 16 == b as int / 16;
    assert r / 4 == b as int % 16 && r % 4 == c as int / 64;
  }

  lemma SextetsInverse(p: Sextet, q: Sextet, r: Sextet, t: Sextet)
    ensures var g := Octets(p, q, r, t); Sextets(g.0, g.1, g.2) == (p, q, r, t)
  {
    var a, b, c := p * 4 + q / 16, q % 16 * 16 + r / 4, r % 4 * 64 + t;
    assert a / 4 == p && a % 4 == q / 16;
    assert b / 16 == q % 16 && b % 16 == r / 4;
    assert c / 64 == r % 4 && c % 64 == t;
  }

  predicate InAlphabet(s: string)
  {
    forall i :: 0 <= i < |s| ==> SymbolValue(s[i]) >= 0
  }

  /** Three bytes become four symbols; a last group of one or two, filled up with zero bits, becomes
      two or three. */
  function Encode(bytes: seq<byte>): (s: string)
    ensures |s| == 4 * (|bytes| / 3) + (if |bytes| % 3 == 0 then 0 else |bytes| % 3 + 1)
  {
    if bytes == [] then ""
    else if |bytes| == 1 then
      var g := Sextets(bytes[0], 0, 0);
      [Symbol(g.0), Symbol(g.1)]
    else if |bytes| == 2 then
      var g := Sextets(bytes[0], bytes[1], 0);
      [Symbol(g.0), Symbol(g.1), Symbol(g.2)]
    else
      var g := Sextets(bytes[0], bytes[1], bytes[2]);
      [Symbol(g.0), Symbol(g.1), Symbol(g.2), Symbol(g.3)] + Encode(bytes[3..])
  }

  /** Decoding rejects characters outside the alphabet (padding among them), a lone last symbol, and
      a last group whose unused bits are not zero. */
  function Decode(s: string): Option<seq<byte>>
  {
    if s == "" then Some([])
    else if |s| == 1 || SymbolValue(s[0]) < 0 || SymbolValue(s[1]) < 0 then None
    else if |s| == 2 then
      var o := Octets(SymbolValue(s[0]), SymbolValue(s[1]), 0, 0);
      if o.1 == 0 then Some([o.0]) else None
    else if SymbolValue(s[2]) < 0 then None
    else if |s| == 3 then
      var o := Octets(SymbolValue(s[0]), SymbolValue(s[1]), SymbolValue(s[2]), 0);
      if o.2 == 0 then Some([o.0, o.1]) else None
    else if SymbolValue(s[3]) < 0 then None
    else match Decode(s[4..])
      case None => None
      case Some(rest) =>
        var o := Octets(SymbolValue(s[0]), SymbolValue(s[1]), SymbolValue(s[2]), SymbolValue(s[3]));
        Some([o.0, o.1, o.2] + rest)
  }

  /** Decoding inverts encoding. */
  lemma {:induction false} DecodeEncode(bytes: seq<byte>)
    ensures Decode(Encode(bytes)) == Some(bytes)
    decreases |bytes|
  {
    if |bytes| >= 3 {
      DecodeEncode(bytes[3..]);
      ThreeBytes(bytes);
    } else if bytes != [] {
      LastBytes(bytes);
    }
  }

  lemma EncodeGroup(bytes: seq<byte>)
    requires |bytes| >= 3
    ensures var g := Sextets(bytes[0], bytes[1], bytes[2]);
      Encode(bytes) == [Symbol(g.0), Symbol(g.1), Symbol(g.2), Symbol(g.3)] + Encode(bytes[3..])
  {
  }

  lemma DecodeGroup(s: string, rest: seq<byte>)
    requires |s| >= 4 && Decode(s[4..]) == Some(rest)
    requires SymbolValue(s[0]) >= 0 && SymbolValue(s[1]) >= 0 && SymbolValue(s[2]) >= 0 && SymbolValue(s[3]) >= 0
    ensures var o := Octets(SymbolValue(s[0]), SymbolValue(s[1]), SymbolValue(s[2]), SymbolValue(s[3]));
      Decode(s) == Some([o.0, o.1, o.2] + rest)
  {
    hide Octets, SymbolValue;
  }

  lemma ThreeBytes(bytes: seq<byte>)
    requires |bytes| >= 3 && Decode(Encode(bytes[3..])) == Some(bytes[3..])
    ensures Decode(Encode(bytes)) == Some(bytes)
  {
    hide Sextets, Octets, Symbol, SymbolValue, Encode, Decode;
    GroupInverse(bytes[0], bytes[1], bytes[2]);
    EncodeGroup(bytes);
    assert Encode(bytes)[4..] == Encode(bytes[3..]);
    DecodeGroup(Encode(bytes), bytes[3..]);
    assert bytes == [bytes[0], bytes[1], bytes[2]] + bytes[3..];
  }

  lemma LastBytes(bytes: seq<byte>)
    requires 0 < |bytes| < 3
    ensures Decode(Encode(bytes)) == Some(bytes)
  {
    GroupInverse(bytes[0], if |bytes| > 1 then bytes[1] else 0, 0);
    assert SymbolValue(Symbol(0)) == 0 && Sextets(bytes[0], 0, 0).2 == 0 && Sextets(bytes[0], 0, 0).3 == 0;
    assert |bytes| == 2 ==> Sextets(bytes[0], bytes[1], 0).3 == 0;
    hide Sextets, Octets, Symbol, SymbolValue;
    assert bytes == if |bytes| == 1 then [bytes[0]] else [bytes[0], bytes[1]];
  }

  /** The symbols of a group give its bytes back. */
  lemma GroupInverse(a: byte, b: byte, c: byte)
    ensures var g := Sextets(a, b, c);
      && SymbolValue(Symbol(g.0)) == g.0 && SymbolValue(Symbol(g.1)) == g.1
      && SymbolValue(Symbol(g.2)) == g.2 && SymbolValue(Symbol(g.3)) == g.3
      && Octets(g.0, g.1, g.2, g.3) == (a, b, c)
  {
    var g := Sextets(a, b, c);
    OctetsInverse(a, b, c);
    SymbolInverse(g.0);
    SymbolInverse(g.1);
    SymbolInverse(g.2);
    SymbolInverse(g.3);
  }

  /** And encoding inverts decoding: an accepted text is the only one for its bytes. */
  lemma {:induction false} EncodeDecode(s: string)
    requires Decode(s).Some?
    ensures Encode(Decode(s).value) == s
    decreases |s|
  {
    if |s| >= 4 {
      EncodeDecode(s[4..]);
      WholeGroup(s);
    } else if s != "" {
      LastGroup(s);
    }
  }

  lemma WholeGroup(s: string)
    requires |s| >= 4 && Decode(s).Some? && Decode(s[4..]).Some? && Encode(Decode(s[4..]).value) == s[4..]
    ensures Encode(Decode(s).value) == s
  {
    SextetsInverse(SymbolValue(s[0]), SymbolValue(s[1]), SymbolValue(s[2]), SymbolValue(s[3]));
    ValueInverse(s[0]);
    ValueInverse(s[1]);
    ValueInverse(s[2]);
    ValueInverse(s[3]);
    hide Sextets, Octets, Symbol, SymbolValue;
    assert Decode(s).value[3..] == Decode(s[4..]).value;
    assert s == [s[0], s[1], s[2], s[3]] + s[4..];
  }

  lemma LastGroup(s: string)
    requires 0 < |s| < 4 && Decode(s).Some?
    ensures Encode(Decode(s).value) == s
  {
    var r := if |s| > 2 then SymbolValue(s[2]) else 0;
    SextetsInverse(SymbolValue(s[0]), SymbolValue(s[1]), r, 0);
    ValueInverse(s[0]);
    ValueInverse(s[1]);
    if |s| == 3 { ValueInverse(s[2]); }
    hide Sextets, Octets, Symbol, SymbolValue;
    assert s == if |s| == 2 then [s[0], s[1]] else [s[0], s[1], s[2]];
  }

  lemma {:induction false} EncodeInAlphabet(bytes: seq<byte>)
    ensures InAlphabet(Encode(bytes))
    decreases |bytes|
  {
    if bytes != [] {
      GroupInverse(bytes[0], if |bytes| > 1 then bytes[1] else 0, if |bytes| > 2 then bytes[2] else 0);
      hide Sextets, Symbol, SymbolValue;
      if |bytes| >= 3 { EncodeInAlphabet(bytes[3..]); }
    }
  }

  /** Nothing outside the alphabet decodes; in particular no padded text does. */
  lemma {:induction false} OnlyAlphabetDecodes(s: string)
    requires Decode(s).Some?
    ensures InAlphabet(s) && |s| % 4 != 1
    decreases |s|
  {
    hide Octets, SymbolValue;
    if |s| >= 4 {
      OnlyAlphabetDecodes(s[4..]);
      assert InAlphabet(s[..4]);
      hide Decode;
      forall i | 0 <= i < |s| ensures SymbolValue(s[i]) >= 0 {
        assert s[i] == if i < 4 then s[..4][i] else s[4..][i - 4];
      }
    }
  }

  // ---- what is decoded ----

  /** Symbols read as a number in base 64, most significant first. */
  function Base64Number(s: string): int
    requires InAlphabet(s)
  {
    if s == "" then 0 else 64 * Base64Number(s[..|s| - 1]) + SymbolValue(s[|s| - 1])
  }

  /** Bytes read as a number in base 256. */
  function Base256Number(bytes: seq<byte>): nat
  {
    if bytes == [] then 0 else 256 * Base256Number(bytes[..|bytes| - 1]) + bytes[|bytes| - 1] as int
  }

  lemma FourSymbols(s: string)
    requires |s| == 4 && InAlphabet(s)
    ensures Base64Number(s) ==
      262_144 * SymbolValue(s[0]) + 4_096 * SymbolValue(s[1]) + 64 * SymbolValue(s[2]) + SymbolValue(s[3])
  {
    hide SymbolValue;
    assert s[..3][..2][..1] == s[..1] && s[..3][..2] == s[..2] && s[..2][..1] == s[..1];
    assert Base64Number(s[..1]) == 64 * Base64Number(s[..1][..0]) + SymbolValue(s[0]);
    assert Base64Number(s[..2]) == 64 * Base64Number(s[..1]) + SymbolValue(s[1]);
    assert Base64Number(s[..3]) == 64 * Base64Number(s[..2]) + SymbolValue(s[2]);
  }

  lemma ThreeOctets(b: seq<byte>)
    requires |b| == 3
    ensures Base256Number(b) == 65_536 * b[0] as int + 256 * b[1] as int + b[2] as int
  {
    assert b[..2][..1] == b[..1];
    assert Base256Number(b[..1]) == b[0] as int;
  }

  lemma OctetsNumber(p: Sextet, q: Sextet, r: Sextet, t: Sextet)
    ensures var o := Octets(p, q, r, t);
      65_536 * o.0 as int + 256 * o.1 as int + o.2 as int == 262_144 * p + 4_096 * q + 64 * r + t
  {
  }

  /** Every whole group of an accepted text is the number its three bytes are. */
  lemma {:induction false} GroupsAreNumbers(s: string, k: nat)
    requires Decode(s).Some? && 4 * k + 4 <= |s|
    ensures InAlphabet(s[4 * k..4 * k + 4]) && 3 * k + 3 <= |Decode(s).value|
    ensures Base256Number(Decode(s).value[3 * k..3 * k + 3]) == Base64Number(s[4 * k..4 * k + 4])
    decreases k
  {
    hide Decode, SymbolValue, Base256Number, Base64Number;
    var bytes := Decode(s).value;
    if k == 0 {
      OnlyAlphabetDecodes(s);
      FirstGroup(s);
    } else {
      DecodeTail(s);
      GroupsAreNumbers(s[4..], k - 1);
      assert s[4..][4 * (k - 1)..4 * (k - 1) + 4] == s[4 * k..4 * k + 4];
      assert bytes[3..][3 * (k - 1)..3 * (k - 1) + 3] == bytes[3 * k..3 * k + 3];
    }
  }

  lemma DecodeTail(s: string)
    requires |s| >= 4 && Decode(s).Some?
    ensures Decode(s[4..]).Some? && |Decode(s).value| >= 3 && Decode(s).value[3..] == Decode(s[4..]).value
  {
    hide Octets, SymbolValue;
  }

  lemma FirstGroup(s: string)
    requires |s| >= 4 && Decode(s).Some? && InAlphabet(s)
    ensures InAlphabet(s[..4]) && |Decode(s).value| >= 3
    ensures Base256Number(Decode(s).value[..3]) == Base64Number(s[..4])
  {
    hide Octets, SymbolValue, Base256Number, Base64Number;
    var bytes := Decode(s).value;
    OctetsNumber(SymbolValue(s[0]), SymbolValue(s[1]), SymbolValue(s[2]), SymbolValue(s[3]));
    FourSymbols(s[..4]);
    ThreeOctets(bytes[..3]);
  }

  /** A last group of two or three symbols is its one or two bytes, with zero bits to fill it up. */
  lemma LastGroupIsNumber(s: string)
    requires 2 <= |s| <= 3 && Decode(s).Some?
    ensures InAlphabet(s) && |Decode(s).value| == |s| - 1
    ensures |s| == 2 ==> 64 * SymbolValue(s[0]) + SymbolValue(s[1]) == 16 * Decode(s).value[0] as int
    ensures |s| == 3 ==>
      4_096 * SymbolValue(s[0]) + 64 * SymbolValue(s[1]) + SymbolValue(s[2])
        == 4 * (256 * Decode(s).value[0] as int + Decode(s).value[1] as int)
  {
    hide Octets, SymbolValue;
    OnlyAlphabetDecodes(s);
    OctetsNumber(SymbolValue(s[0]), SymbolValue(s[1]), if |s| == 3 then SymbolValue(s[2]) else 0, 0);
    if |s| == 2 { ShortOctets(SymbolValue(s[0]), SymbolValue(s[1])); }
  }

  lemma ShortOctets(p: Sextet, q: Sextet)
    ensures Octets(p, q, 0, 0).2 == 0
  {
  }
}
