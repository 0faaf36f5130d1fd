/**
 * Base 64 as defined in section 4 of RFC 4648: the backend's `base64.b64encode` turns the
 * synthesized audio into text, and the browser's `atob` (the "forgiving-base64 decode" of the
 * WHATWG Infra standard) turns that text back into a binary string, one character per byte.
 */
module Base64 {
  import opened Common

  type Sextet = x: int | 0 <= x < 64

  /** The character for a 6-bit value (the table in section 4 of RFC 4648). */
  function EncodeChar(x: Sextet): char {
    if x < 26 then ('A' as int + x) as char
    else if x < 52 then ('a' as int + (x - 26)) as char
    else if x < 62 then ('0' as int + (x - 52)) as char
    else if x == 62 then '+'
    else '/'
  }

  predicate IsAlphabetChar(c: char) {
    ('A' <= c <= 'Z') || ('a' <= c <= 'z') || ('0' <= c <= '9') || c == '+' || c == '/'
  }

  /** The 6-bit value of an alphabet character. */
  function DecodeChar(c: char): Sextet
    requires IsAlphabetChar(c)
  {
    if 'A' <= c <= 'Z' then c as int - 'A' as int
    else if 'a' <= c <= 'z' then c as int - 'a' as int + 26
    else if '0' <= c <= '9' then c as int - '0' as int + 52
    else if c == '+' then 62
    else 63
  }

  /** Every 6-bit value has its own character, and decoding that character gives the value back. */
  lemma DecodeEncodeChar(x: Sextet)
    ensures IsAlphabetChar(EncodeChar(x)) && EncodeChar(x) != '='
    ensures DecodeChar(EncodeChar(x)) == x
  {
  }

  /** The 6-bit groups of the input, most significant bits first, the last group padded with zero bits. */
  function Sextets(b: seq<Byte>): (q: seq<Sextet>)
    ensures |q| % 4 == (if |b| % 3 == 0 then 0 else |b| % 3 + 1)
    ensures |q| == 0 <==> |b| == 0
  {
    if |b| == 0 then []
    else if |b| == 1 then [b[0] / 4, (b[0] % 4) * 16]
    else if |b| == 2 then [b[0] / 4, (b[0] % 4) * 16 + b[1] / 16, (b[1] % 16) * 4]
    else [b[0] / 4, (b[0] % 4) * 16 + b[1] / 16, (b[1] % 16) * 4 + b[2] / 64, b[2] % 64] + Sextets(b[3..])
  }

  function Padding(n: nat): string {
    if n % 3 == 1 then "==" else if n % 3 == 2 then "=" else ""
  }

  function Chars(q: seq<Sextet>): (s: string)
    ensures |s| == |q|
    ensures forall i | 0 <= i < |q| :: s[i] == EncodeChar(q[i])
  {
    seq(|q|, i requires 0 <= i < |q| => EncodeChar(q[i]))
  }

  /** `base64.b64encode(data).decode('utf-8')`. */
  function Encode(b: seq<Byte>): (s: string)
    ensures |s| % 4 == 0
    ensures s == [] <==> b == []
  {
    Chars(Sextets(b)) + Padding(|b|)
  }

  /** Bytes from 6-bit groups, 24 bits at a time; a trailing 12 or 18 bits give one or two bytes. */
  function DecodeSextets(q: seq<Sextet>): seq<Byte>
    requires |q| % 4 != 1
  {
    if |q| == 0 then []
    else if |q| == 2 then [High(q[0], q[1])]
    else if |q| == 3 then [High(q[0], q[1]), Middle(q[1], q[2])]
    else [High(q[0], q[1]), Middle(q[1], q[2]), Low(q[2], q[3])] + DecodeSextets(q[4..])
  }

  /** First byte of a group: all six bits of the first character and the top two of the second. */
  function High(c0: Sextet, c1: Sextet): Byte { c0 * 4 + c1 / 16 }

  /** Second byte: the low four bits of the second character and the top four of the third. */
  function Middle(c1: Sextet, c2: Sextet): Byte { (c1 % 16) * 16 + c2 / 4 }

  /** Third byte: the low two bits of the third character and all six of the fourth. */
  function Low(c2: Sextet, c3: Sextet): Byte { (c2 % 4) * 64 + c3 }

  /** The data's one-character-per-byte string: what `atob` returns and `charCodeAt` reads. */
  function BinaryString(b: seq<Byte>): (s: string)
    ensures |s| == |b|
    ensures forall i | 0 <= i < |b| :: s[i] as int == b[i]
  {
    seq(|b|, i requires 0 <= i < |b| => b[i] as char)
  }

  /** ASCII whitespace as the WHATWG Infra standard defines it. */
  predicate IsAsciiWhitespace(c: char) {
    c == '\t' || c == '\n' || c == '\U{C}' || c == '\r' || c == ' '
  }

  function NotAsciiWhitespace(): char -> bool {
    c => !IsAsciiWhitespace(c)
  }

  /** Step 2 of forgiving-base64 decode: when the length is a multiple of 4, one or two trailing '=' go. */
  function StripPadding(s: string): string {
    if |s| % 4 == 0 && |s| >= 2 && s[|s| - 2..] == "==" then s[..|s| - 2]
    else if |s| % 4 == 0 && |s| >= 1 && s[|s| - 1] == '=' then s[..|s| - 1]
    else s
  }

  /** `atob(s)`: the decoded binary string, or the "InvalidCharacterError" it throws. */
  function Atob(s: string): Result<string> {
    var d := StripPadding(Filter(s, NotAsciiWhitespace()));
    if |d| % 4 == 1 then Err("InvalidCharacterError")
    else if exists i | 0 <= i < |d| :: !IsAlphabetChar(d[i]) then Err("InvalidCharacterError")
    else
      var q := seq(|d|, i requires 0 <= i < |d| => DecodeChar(d[i]));
      Ok(BinaryString(DecodeSextets(q)))
  }

  /** Decoding the 6-bit groups of some bytes gives those bytes back. */
  lemma {:induction false} DecodeSextetsOfSextets(b: seq<Byte>)
    ensures DecodeSextets(Sextets(b)) == b
    decreases |b|
  {
    if |b| >= 3 {
      var q := Sextets(b);
      assert q[4..] == Sextets(b[3..]);
      DecodeSextetsOfSextets(b[3..]);
      assert b == b[..3] + b[3..];
    }
  }

  /** The encoded text is the alphabet characters of the 6-bit groups followed by the padding. */
  lemma EncodeParts(b: seq<Byte>)
    ensures StripPadding(Encode(b)) == Chars(Sextets(b))
  {
    var q := Sextets(b);
    var c := Chars(q);
    var e := Encode(b);
    assert e == c + Padding(|b|);
    if |b| % 3 == 1 {
      assert e[..|e| - 2] == c;
    } else if |b| % 3 == 2 {
      assert |e| >= 2 && e[|e| - 2] == c[|c| - 1];
      DecodeEncodeChar(q[|c| - 1]);
      assert e[..|e| - 1] == c;
    } else {
      assert e == c;
      if |c| >= 1 {
        DecodeEncodeChar(q[|c| - 1]);
      }
    }
  }

  /** `atob(b64encode(b))` succeeds and yields exactly the bytes b, one character each. */
  lemma AtobEncode(b: seq<Byte>)
    ensures Atob(Encode(b)) == Ok(BinaryString(b))
  {
    var e := Encode(b);
    var q := Sextets(b);
    forall i | 0 <= i < |e| ensures NotAsciiWhitespace()(e[i]) {
      if i < |q| { assert e[i] == EncodeChar(q[i]); } else { assert e[i] == '='; }
    }
    FilterShrinksIff(e, NotAsciiWhitespace());
    assert Filter(e, NotAsciiWhitespace()) == e;
    EncodeParts(b);
    var d := StripPadding(e);
    assert d == Chars(q);
    forall i | 0 <= i < |d| ensures IsAlphabetChar(d[i]) && DecodeChar(d[i]) == q[i] {
      DecodeEncodeChar(q[i]);
    }
    assert seq(|d|, i requires 0 <= i < |d| => DecodeChar(d[i])) == q;
    DecodeSextetsOfSextets(b);
  }
}
