/** The go-plugin handshake line: `core|protocol|network|address|type|cert`. */
module Handshake {
  import opened Options
  import opened Bytes
  import opened Decimal
  import opened Base64

  const CORE_PROTOCOL_VERSION := 1
  const OFFERED_PROTOCOL_VERSION := 1
  const MIN_CERT_FIELD_LEN := 50
  const U32_MAX := 0xFFFF_FFFF

  datatype Handshake = Handshake(protocolVersion: nat, network: string, address: string, cert: Option<seq<byte>>)

  datatype Error =
    | TooFewFields(count: nat, line: string)
    | InvalidCoreVersion(field: string)
    | UnsupportedCoreVersion(version: nat)
    | InvalidProtocolVersion(field: string)
    | UnsupportedProtocolVersion(version: nat)
    | UnsupportedProtocolType(field: string)
    | InvalidCertEncoding

  datatype Result<+T> = Ok(value: T) | Err(error: Error)

  // ---- splitting ----

  /** The text before the first bar, or all of it. */
  function Head(s: string): (h: string)
    ensures '|' !in h && |h| <= |s| && h == s[..|h|] && (|h| < |s| ==> s[|h|] == '|')
  {
    if s == "" || s[0] == '|' then "" else [s[0]] + Head(s[1..])
  }

  /** The fields between bars; a line without bars is one field. */
  function Split(s: string): (parts: seq<string>)
    ensures |parts| >= 1
    decreases |s|
  {
    var h := Head(s);
    if |h| == |s| then [h] else [h] + Split(s[|h| + 1..])
  }

  function Join(parts: seq<string>): string
    requires parts != []
  {
    if |parts| == 1 then parts[0] else parts[0] + "|" + Join(parts[1..])
  }

  ghost predicate BarFree(parts: seq<string>)
  {
    forall i :: 0 <= i < |parts| ==> '|' !in parts[i]
  }

  lemma {:induction false} HeadOf(h: string, rest: string)
    requires '|' !in h && (rest == "" || rest[0] == '|')
    ensures Head(h + rest) == h
    decreases |h|
  {
    if h == "" {
    } else {
      assert (h + rest)[1..] == h[1..] + rest;
      HeadOf(h[1..], rest);
    }
  }

  /** Splitting inverts joining, as long as no field holds a bar. */
  lemma {:induction false} SplitJoin(parts: seq<string>)
    requires parts != [] && BarFree(parts)
    ensures Split(Join(parts)) == parts
    decreases |parts|
  {
    if |parts| == 1 {
      assert parts[0] + "" == parts[0];
    } else {
      var rest := "|" + Join(parts[1..]);
      assert Join(parts) == parts[0] + rest;
      HeadOf(parts[0], rest);
      SplitJoin(parts[1..]);
    }
  }

  /** And joining inverts splitting: the fields are all of the line. */
  lemma {:induction false} JoinSplit(s: string)
    ensures Join(Split(s)) == s
    decreases |s|
  {
    var h := Head(s);
    if |h| < |s| {
      JoinSplit(s[|h| + 1..]);
      assert Split(s)[1..] == Split(s[|h| + 1..]);
      assert s == h + "|" + s[|h| + 1..];
    }
  }

  lemma {:induction false} SplitBarFree(s: string)
    ensures BarFree(Split(s))
    decreases |s|
  {
    var h := Head(s);
    if |h| < |s| { SplitBarFree(s[|h| + 1..]); }
  }

  /** Appending a field to a line appends it to its fields. */
  lemma {:induction false} SplitAppend(s: string, extra: string)
    ensures Split(s + "|" + extra) == Split(s) + Split(extra)
    decreases |s|
  {
    hide Split, Head;
    var h := Head(s);
    var line := s + "|" + extra;
    HeadAppend(s, extra);
    if |h| == |s| {
      SplitPlain(s);
      SplitBar(line, extra);
    } else {
      var rest := s[|h| + 1..];
      SplitBar(s, rest);
      SplitBar(line, rest + "|" + extra);
      SplitAppend(rest, extra);
      assert [h] + (Split(rest) + Split(extra)) == [h] + Split(rest) + Split(extra);
    }
  }

  lemma {:induction false} HeadAppend(s: string, extra: string)
    ensures Head(s + "|" + extra) == Head(s)
    decreases |s|
  {
    if s != "" && s[0] != '|' {
      assert (s + "|" + extra)[1..] == s[1..] + "|" + extra;
      HeadAppend(s[1..], extra);
    }
  }

  lemma SplitPlain(s: string)
    requires |Head(s)| == |s|
    ensures Split(s) == [Head(s)] && Head(s) == s
  {
  }

  lemma SplitBar(s: string, rest: string)
    requires |Head(s)| < |s| && rest == s[|Head(s)| + 1..]
    ensures Split(s) == [Head(s)] + Split(rest)
  {
  }

  // ---- fields ----

  /** Rust's `u32` parsing: an optional plus sign, then digits, without overflow. */
  function ParseU32(s: string): Option<nat>
  {
    var digits := if s != "" && s[0] == '+' then s[1..] else s;
    if digits != "" && AllDigits(digits) && Value(digits) <= U32_MAX then Some(Value(digits)) else None
  }

  /** A numeral, with or without a plus sign, parses to its number if that fits 32 bits. */
  lemma NumeralParses(n: nat)
    ensures ParseU32(Numeral(n)) == if n <= 4_294_967_295 then Some(n) else None
    ensures ParseU32("+" + Numeral(n)) == if n <= 4_294_967_295 then Some(n) else None
  {
    NumeralReads(n);
    assert ("+" + Numeral(n))[1..] == Numeral(n);
  }

  /** Nothing else does: no sign alone, no minus sign, no character that is not a digit. */
  lemma OthersDoNot(s: string, i: nat)
    requires s == "" || s == "+" || (i < |s| && !('0' <= s[i] <= '9') && (i > 0 || s[0] != '+'))
    ensures ParseU32(s).None?
  {
    if s != "" && s[0] == '+' && i > 0 && i < |s| { assert s[1..][i - 1] == s[i]; }
  }

  /** The UTF-8 form of a character (section 3 of RFC 3629). */
  function Utf8(c: char): seq<byte>
  {
    var v := c as int;
    if v < 0x80 then [v as byte]
    else if v < 0x800 then [(0xC0 + v / 64) as byte, (0x80 + v % 64) as byte]
    else if v < 0x10000 then
      [(0xE0 + v / 4096) as byte, (0x80 + v / 64 % 64) as byte, (0x80 + v % 64) as byte]
    else
      [(0xF0 + v / 262_144) as byte, (0x80 + v / 4096 % 64) as byte,
       (0x80 + v / 64 % 64) as byte, (0x80 + v % 64) as byte]
  }

  function Utf8Encoding(s: string): seq<byte>
  {
    if s == "" then [] else Utf8(s[0]) + Utf8Encoding(s[1..])
  }

  /** The length that counts is that of the UTF-8 form. */
  lemma {:induction false} LengthInUtf8(s: string)
    ensures Utf8Length(s) == |Utf8Encoding(s)|
    decreases |s|
  {
    if s != "" { LengthInUtf8(s[1..]); }
  }

  function Utf8Width(c: char): nat
  {
    if c as int < 0x80 then 1 else if c as int < 0x800 then 2 else if c as int < 0x10000 then 3 else 4
  }

  /** The length of a text in UTF-8 bytes, which is what the certificate threshold counts. */
  function Utf8Length(s: string): nat
  {
    if s == "" then 0 else Utf8Width(s[0]) + Utf8Length(s[1..])
  }

  lemma {:induction false} AsciiLength(s: string)
    requires InAlphabet(s)
    ensures Utf8Length(s) == |s|
    decreases |s|
  {
    if s != "" { AsciiLength(s[1..]); }
  }

  // ---- parsing ----

  function Parse(line: string): Result<Handshake>
  {
    ParseFields(Split(line), line)
  }

  function ParseFields(parts: seq<string>, line: string): Result<Handshake>
  {
    if |parts| < 4 then Err(TooFewFields(|parts|, line))
    else match ParseU32(parts[0])
      case None => Err(InvalidCoreVersion(parts[0]))
      case Some(core) =>
        if core != CORE_PROTOCOL_VERSION then Err(UnsupportedCoreVersion(core))
        else match ParseU32(parts[1])
          case None => Err(InvalidProtocolVersion(parts[1]))
          case Some(version) =>
            if version != OFFERED_PROTOCOL_VERSION then Err(UnsupportedProtocolVersion(version))
            else
              var kind := if |parts| > 4 then parts[4] else "";
              if kind != "grpc" then Err(UnsupportedProtocolType(kind))
              else if |parts| > 5 && Utf8Length(parts[5]) > MIN_CERT_FIELD_LEN then
                match Decode(parts[5])
                case None => Err(InvalidCertEncoding)
                case Some(der) => Ok(Handshake(version, parts[2], parts[3], Some(der)))
              else Ok(Handshake(version, parts[2], parts[3], None))
  }

  /** The fields a plugin prints for a handshake, and the line it makes of them. */
  function Fields(h: Handshake): seq<string>
  {
    ["1", "1", h.network, h.address, "grpc"] + match h.cert
                                               case None => []
                                               case Some(der) => [Encode(der)]
  }

  function Print(h: Handshake): string
  {
    Join(Fields(h))
  }

  /** What a printed line can carry: no bar in a field, and no certificate or one of 38 bytes up. */
  predicate Printable(h: Handshake)
  {
    '|' !in h.network && '|' !in h.address && (h.cert.Some? ==> |h.cert.value| >= 38)
  }

  /** A certificate survives exactly if it has at least 38 bytes; shorter ones encode to at most 50
      characters and are dropped. */
  lemma CertField(der: seq<byte>)
    ensures '|' !in Encode(der) && Decode(Encode(der)) == Some(der)
    ensures Utf8Length(Encode(der)) > MIN_CERT_FIELD_LEN <==> |der| >= 38
  {
    EncodeInAlphabet(der);
    AsciiLength(Encode(der));
    DecodeEncode(der);
    assert SymbolValue('|') == -1;
  }

  /** The fields parse back, but for a certificate that is too short. */
  lemma FieldsParse(h: Handshake, line: string)
    requires h.protocolVersion == OFFERED_PROTOCOL_VERSION
    ensures ParseFields(Fields(h), line) ==
      Ok(if h.cert.Some? && |h.cert.value| < 38 then h.(cert := None) else h)
  {
    if h.cert.Some? { CertField(h.cert.value); }
  }

  /** A line with a bar in the network or the address cannot give them back: no parsed field holds one. */
  lemma ParsedBarFree(line: string)
    requires Parse(line).Ok?
    ensures '|' !in Parse(line).value.network && '|' !in Parse(line).value.address
  {
    SplitBarFree(line);
  }

  /** Printing and parsing a handshake gives it back if and only if no field holds a bar and the
      certificate, if there is one, has at least 38 bytes. */
  lemma RoundTrip(h: Handshake)
    requires h.protocolVersion == OFFERED_PROTOCOL_VERSION
    ensures Parse(Print(h)) == Ok(h) <==> Printable(h)
  {
    if '|' !in h.network && '|' !in h.address {
      if h.cert.Some? { CertField(h.cert.value); }
      SplitJoin(Fields(h));
      FieldsParse(h, Print(h));
    } else if Parse(Print(h)).Ok? {
      ParsedBarFree(Print(h));
    }
  }

  /** Fields after the sixth change nothing. */
  lemma ExtraFieldsIgnored(line: string, extra: string)
    requires |Split(line)| >= 6
    ensures Parse(line + "|" + extra) == Parse(line)
  {
    SplitAppend(line, extra);
    hide Split;
    FirstSixDecide(Split(line), Split(extra), line, line + "|" + extra);
  }

  lemma FirstSixDecide(parts: seq<string>, more: seq<string>, line: string, line': string)
    requires |parts| >= 6
    ensures ParseFields(parts + more, line') == ParseFields(parts, line)
  {
  }

  /** Parsing is strict: an accepted line has version 1 twice, type `grpc`, and a certificate field
      that is too short to count or is the exact encoding of the certificate. */
  lemma AcceptedLines(line: string)
    requires Parse(line).Ok?
    ensures var parts := Split(line); var h := Parse(line).value;
      && |parts| >= 5 && parts[4] == "grpc" && ParseU32(parts[0]) == Some(1) && ParseU32(parts[1]) == Some(1)
      && h.protocolVersion == 1 && h.network == parts[2] && h.address == parts[3]
      && (h.cert.Some? <==> |parts| > 5 && Utf8Length(parts[5]) > MIN_CERT_FIELD_LEN)
      && (h.cert.Some? ==> parts[5] == Encode(h.cert.value))
  {
    var parts := Split(line);
    if |parts| > 5 && Utf8Length(parts[5]) > MIN_CERT_FIELD_LEN { EncodeDecode(parts[5]); }
  }

  /** Why a line is rejected: the checks are made in this order, and the first that fails is reported. */
  lemma RejectedLines(line: string)
    ensures var parts := Split(line); var r := Parse(line);
      && (|parts| < 4 <==> r == Err(TooFewFields(|parts|, line)))
      && (|parts| >= 4 ==>
        && var core, version := ParseU32(parts[0]), ParseU32(parts[1]);
          var kind := if |parts| > 4 then parts[4] else "";
          && (core.None? <==> r == Err(InvalidCoreVersion(parts[0])))
          && (core.Some? && core.value != 1 <==> exists v :: r == Err(UnsupportedCoreVersion(v)))
          && (core.Some? && core.value != 1 ==> r == Err(UnsupportedCoreVersion(core.value)))
          && (core == Some(1) && version.None? <==> r == Err(InvalidProtocolVersion(parts[1])))
          && (core == Some(1) && version.Some? && version.value != 1 ==>
               r == Err(UnsupportedProtocolVersion(version.value)))
          && (core == version == Some(1) && kind != "grpc" <==> r == Err(UnsupportedProtocolType(kind)))
          && (core == version == Some(1) && kind == "grpc" ==>
               (r == Err(InvalidCertEncoding) <==>
                 |parts| > 5 && |Utf8Encoding(parts[5])| > 50 && Decode(parts[5]).None?)
               && (r.Err? ==> r == Err(InvalidCertEncoding))))
  {
    var parts := Split(line);
    if |parts| > 5 { LengthInUtf8(parts[5]); }
  }
}
