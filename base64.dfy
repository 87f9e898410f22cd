/**
 * Unpadded standard base64, as Go's `base64.RawStdEncoding`: the alphabet of
 * table 1 in section 4 of RFC 4648, without the `=` padding that section 3.2
 * lets an encoding leave out. `Decode` follows Go's non-strict decoder: it
 * skips carriage returns and line feeds, rejects any other character outside
 * the alphabet (`=` included) and a final group of a single character, and
 * ignores the unused low bits of a final group of two or three characters.
 */
module Base64 {
  import opened Wrappers

  type byte = x: int | 0 <= x < 256

  /** A character of the RFC 4648 alphabet (never `=`, `\r` or `\n`). */
  predicate IsAlphabetChar(c: char) {
    ('A' <= c <= 'Z') || ('a' <= c <= 'z') || ('0' <= c <= '9') || c == '+' || c == '/'
  }

  /** The character that encodes a 6-bit value: A-Z, a-z, 0-9, then `+` and `/`. */
  function EncodeSextet(x: int): (c: char)
    requires 0 <= x < 64
    ensures IsAlphabetChar(c)
    ensures DecodeSextet(c) == Some(x)
  {
    if x < 26 then ('A' as int + x) as char
    else if x < 52 then ('a' as int + (x - 26)) as char
    else if x < 62 then ('0' as int + (x - 52)) as char
    else if x == 62 then '+'
    else '/'
  }

  /** The 6-bit value a character stands for, or None outside the alphabet. */
  function DecodeSextet(c: char): (r: Option<int>)
    ensures r.Some? <==> IsAlphabetChar(c)
    ensures r.Some? ==> 0 <= r.value < 64
  {
    if 'A' <= c <= 'Z' then Some(c as int - 'A' as int)
    else if 'a' <= c <= 'z' then Some(c as int - 'a' as int + 26)
    else if '0' <= c <= '9' then Some(c as int - '0' as int + 52)
    else if c == '+' then Some(62)
    else if c == '/' then Some(63)
    else None
  }

  /** Four characters for three bytes (section 4 of RFC 4648). */
  function EncodeQuantum(a: byte, b: byte, c: byte): string {
    [EncodeSextet(a / 4), EncodeSextet((a % 4) * 16 + b / 16),
     EncodeSextet((b % 16) * 4 + c / 64), EncodeSextet(c % 64)]
  }

  /** Encoding without padding: a final group of one byte gives two
      characters, a final group of two bytes three. */
  function Encode(b: seq<byte>): (s: string)
    ensures |s| == (4 * |b| + 2) / 3
    ensures forall k :: 0 <= k < |s| ==> IsAlphabetChar(s[k])
    decreases |b|
  {
    if |b| >= 3 then EncodeQuantum(b[0], b[1], b[2]) + Encode(b[3..])
    else if |b| == 2 then
      [EncodeSextet(b[0] / 4), EncodeSextet((b[0] % 4) * 16 + b[1] / 16), EncodeSextet((b[1] % 16) * 4)]
    else if |b| == 1 then
      [EncodeSextet(b[0] / 4), EncodeSextet((b[0] % 4) * 16)]
    else []
  }

  /** The input with every '\r' and '\n' removed, as Go's decoder skips them. */
  function RemoveNewlines(s: string): (t: string)
    ensures |t| <= |s|
    ensures forall k :: 0 <= k < |t| ==> t[k] != '\r' && t[k] != '\n'
  {
    if |s| == 0 then []
    else if s[0] == '\r' || s[0] == '\n' then RemoveNewlines(s[1..])
    else [s[0]] + RemoveNewlines(s[1..])
  }

  /** Decoding of a text without line breaks, four characters at a time. A
      final group of a single character carries fewer than eight bits and is
      rejected. */
  function DecodeQuanta(t: string): (r: Option<seq<byte>>)
    ensures |t| % 4 == 1 ==> r == None
    decreases |t|
  {
    if |t| == 0 then Some([])
    else if |t| == 1 then None
    else
      var s0, s1 := DecodeSextet(t[0]), DecodeSextet(t[1]);
      if s0.None? || s1.None? then None
      else
        var a: byte := s0.value * 4 + s1.value / 16;
        if |t| == 2 then Some([a])
        else
          var s2 := DecodeSextet(t[2]);
          if s2.None? then None
          else
            var b: byte := (s1.value % 16) * 16 + s2.value / 4;
            if |t| == 3 then Some([a, b])
            else
              var s3 := DecodeSextet(t[3]);
              if s3.None? then None
              else
                var c: byte := (s2.value % 4) * 64 + s3.value;
                match DecodeQuanta(t[4..])
                case None => None
                case Some(rest) => Some([a, b, c] + rest)
  }

  /** `base64.RawStdEncoding.DecodeString`: None is Go's CorruptInputError. */
  function Decode(s: string): (r: Option<seq<byte>>)
    ensures r.Some? ==> |r.value| == (3 * |RemoveNewlines(s)|) / 4
  {
    DecodeLength(RemoveNewlines(s));
    DecodeQuanta(RemoveNewlines(s))
  }

  lemma {:induction false} DecodeLength(t: string)
    ensures DecodeQuanta(t).Some? ==> |DecodeQuanta(t).value| == (3 * |t|) / 4
    decreases |t|
  {
    if |t| >= 4 {
      DecodeLength(t[4..]);
    }
  }

  /** Text made of alphabet characters has no line breaks to remove. */
  lemma {:induction false} RemoveNewlinesOfAlphabet(s: string)
    requires forall k :: 0 <= k < |s| ==> IsAlphabetChar(s[k])
    ensures RemoveNewlines(s) == s
    decreases |s|
  {
    if |s| > 0 {
      RemoveNewlinesOfAlphabet(s[1..]);
    }
  }

  /** The sextets of a quantum put its three bytes back together. */
  lemma QuantumArithmetic(a: byte, b: byte, c: byte)
    ensures (a / 4) * 4 + ((a % 4) * 16 + b / 16) / 16 == a
    ensures (((a % 4) * 16 + b / 16) % 16) * 16 + ((b % 16) * 4 + c / 64) / 4 == b
    ensures (((b % 16) * 4 + c / 64) % 4) * 64 + c % 64 == c
  {
  }

  /** One encoded quantum in front of any text decodes to its three bytes in
      front of that text's decoding. */
  lemma DecodeOneQuantum(a: byte, b: byte, c: byte, rest: string)
    ensures DecodeQuanta(EncodeQuantum(a, b, c) + rest) ==
            match DecodeQuanta(rest)
            case None => None
            case Some(r) => Some([a, b, c] + r)
  {
    var t := EncodeQuantum(a, b, c) + rest;
    assert t[4..] == rest;
    QuantumArithmetic(a, b, c);
  }

  /** Decoding inverts encoding on the line-break-free text. */
  lemma {:induction false} DecodeQuantaEncode(b: seq<byte>)
    ensures DecodeQuanta(Encode(b)) == Some(b)
    decreases |b|
  {
    if |b| >= 3 {
      DecodeQuantaEncode(b[3..]);
      DecodeOneQuantum(b[0], b[1], b[2], Encode(b[3..]));
      assert b == [b[0], b[1], b[2]] + b[3..];
    } else if |b| == 2 {
      DecodeTwoBytes(b[0], b[1]);
      assert b == [b[0], b[1]];
    } else if |b| == 1 {
      DecodeOneByte(b[0]);
      assert b == [b[0]];
    }
  }

  /** A final group of two bytes: three characters. */
  lemma DecodeTwoBytes(a: byte, b: byte)
    ensures DecodeQuanta(Encode([a, b])) == Some([a, b])
  {
    QuantumArithmetic(a, b, 0);
  }

  /** A final single byte: two characters. */
  lemma DecodeOneByte(a: byte)
    ensures DecodeQuanta(Encode([a])) == Some([a])
  {
    QuantumArithmetic(a, 0, 0);
  }

  /** The round trip: every byte sequence decodes back from its encoding. */
  lemma RoundTrip(b: seq<byte>)
    ensures Decode(Encode(b)) == Some(b)
  {
    RemoveNewlinesOfAlphabet(Encode(b));
    DecodeQuantaEncode(b);
  }

  /** Padding is refused: any `=` in the text makes decoding fail. */
  lemma {:induction false} DecodeRejectsPadding(s: string, k: nat)
    requires k < |s| && s[k] == '='
    ensures Decode(s) == None
  {
    var t := RemoveNewlines(s);
    var j := KeptByRemoveNewlines(s, k);
    QuantaRejectBadChar(t, j);
  }

  /** A character other than a line break survives RemoveNewlines. */
  lemma {:induction false} KeptByRemoveNewlines(s: string, k: nat) returns (j: nat)
    requires k < |s| && s[k] != '\r' && s[k] != '\n'
    ensures j < |RemoveNewlines(s)| && RemoveNewlines(s)[j] == s[k]
    decreases |s|
  {
    if k == 0 {
      j := 0;
    } else {
      var i := KeptByRemoveNewlines(s[1..], k - 1);
      j := if s[0] == '\r' || s[0] == '\n' then i else i + 1;
    }
  }

  /** A character outside the alphabet anywhere makes DecodeQuanta fail. */
  lemma {:induction false} QuantaRejectBadChar(t: string, k: nat)
    requires k < |t| && !IsAlphabetChar(t[k])
    ensures DecodeQuanta(t) == None
    decreases |t|
  {
    if |t| >= 4 && k >= 4 {
      QuantaRejectBadChar(t[4..], k - 4);
    }
  }
}
