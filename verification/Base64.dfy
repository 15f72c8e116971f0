/** Standard base64 with padding (section 4 of RFC 4648), and the decoding of file contents. */
module Base64 {
  import opened Prelude

  type sextet = x: int | 0 <= x < 64

  function Digit(i: sextet): char {
    if i < 26 then 'A' + i as char
    else if i < 52 then 'a' + (i - 26) as char
    else if i < 62 then '0' + (i - 52) as char
    else if i == 62 then '+' else '/'
  }

  function DigitValue(c: char): (r: Option<sextet>) {
    if 'A' <= c <= 'Z' then Some((c - 'A') as int)
    else if 'a' <= c <= 'z' then Some((c - 'a') as int + 26)
    else if '0' <= c <= '9' then Some((c - '0') as int + 52)
    else if c == '+' then Some(62) else if c == '/' then Some(63) else None
  }

  lemma DigitRoundTrip(i: sextet)
    ensures DigitValue(Digit(i)) == Some(i)
  {
  }

  /** The alphabet of section 4 of RFC 4648. */
  const ALPHABET: string :=
    "ABCDEFGHIJKLMNOPQRSTUVWXYZ" + ("abcdefghijklmnopqrstuvwxyz" + "0123456789+/")

  /** The digits are the letters of the alphabet in order, and no other character is one. */
  lemma DigitsAreAlphabet(i: sextet, c: char)
    ensures Digit(i) == ALPHABET[i]
    ensures DigitValue(c) == Some(i) <==> c == Digit(i)
  {
    if i < 26 {
      assert ALPHABET[i] == "ABCDEFGHIJKLMNOPQRSTUVWXYZ"[i];
    } else if i < 52 {
      assert ALPHABET[i] == "abcdefghijklmnopqrstuvwxyz"[i - 26];
    } else {
      assert ALPHABET[i] == "0123456789+/"[i - 52];
    }
  }

  /** One to three bytes as four characters. */
  function Group(b: seq<byte>): (g: string)
    requires 1 <= |b| <= 3
    ensures |g| == 4
  {
    if |b| == 1 then [Digit(b[0] / 4), Digit(b[0] % 4 * 16), '=', '=']
    else if |b| == 2 then [Digit(b[0] / 4), Digit(b[0] % 4 * 16 + b[1] / 16), Digit(b[1] % 16 * 4), '=']
    else [Digit(b[0] / 4), Digit(b[0] % 4 * 16 + b[1] / 16), Digit(b[1] % 16 * 4 + b[2] / 64), Digit(b[2] % 64)]
  }

  /** Four characters back to one to three bytes; unused low bits of the last digit are not
      looked at. */
  function Ungroup(w: char, x: char, y: char, z: char): (r: Option<seq<byte>>)
    ensures r.Some? ==> 1 <= |r.value| <= 3
  {
    var a, b, c, d := DigitValue(w), DigitValue(x), DigitValue(y), DigitValue(z);
    if a.None? || b.None? then None
    else
      var first: byte := a.value * 4 + b.value / 16;
      if y == '=' then (if z == '=' then Some([first]) else None)
      else if c.None? then None
      else
        var second: byte := b.value % 16 * 16 + c.value / 4;
        if z == '=' then Some([first, second])
        else if d.None? then None else Some([first, second, c.value % 4 * 64 + d.value])
  }

  function Encode(b: seq<byte>): string
    decreases |b|
  {
    if b == [] then "" else if |b| <= 3 then Group(b) else Group(b[..3]) + Encode(b[3..])
  }

  /** `base64.StdEncoding.DecodeString` of a text without line breaks: padding only at the end. */
  function Decode(s: string): Option<seq<byte>>
    decreases |s|
  {
    if s == "" then Some([])
    else if |s| < 4 then None
    else
      var first := Ungroup(s[0], s[1], s[2], s[3]);
      if |s| == 4 || first.None? then first
      else if |first.value| < 3 then None
      else
        var rest := Decode(s[4..]);
        if rest.None? then None else Some(first.value + rest.value)
  }

  lemma Recombine(a: byte, b: byte, c: byte)
    ensures (a / 4) * 4 + (a % 4 * 16 + b / 16) / 16 == a
    ensures (a % 4 * 16 + b / 16) % 16 * 16 + (b % 16 * 4 + c / 64) / 4 == b
    ensures (b % 16 * 4 + c / 64) % 4 * 64 + c % 64 == c
  {
  }

  predicate IsGroup(g: string, b: seq<byte>) { |g| == 4 && Ungroup(g[0], g[1], g[2], g[3]) == Some(b) }

  lemma UngroupDigits(i: sextet, j: sextet, k: sextet, l: sextet)
    ensures Ungroup(Digit(i), Digit(j), Digit(k), Digit(l))
            == Some([i * 4 + j / 16, j % 16 * 16 + k / 4, k % 4 * 64 + l])
  {
    DigitRoundTrip(i);
    DigitRoundTrip(j);
    DigitRoundTrip(k);
    DigitRoundTrip(l);
    assert DigitValue('=').None?;
  }

  lemma FullGroup(a: byte, b: byte, c: byte)
    ensures IsGroup(Group([a, b, c]), [a, b, c])
  {
    var i, j, k, l := a / 4, a % 4 * 16 + b / 16, b % 16 * 4 + c / 64, c % 64;
    assert Group([a, b, c]) == [Digit(i), Digit(j), Digit(k), Digit(l)];
    UngroupDigits(i, j, k, l);
    Recombine(a, b, c);
  }

  lemma PaddedGroup(a: byte, b: byte)
    ensures IsGroup(Group([a]), [a]) && IsGroup(Group([a, b]), [a, b])
  {
    DigitRoundTrip(a / 4);
    DigitRoundTrip(a % 4 * 16);
    DigitRoundTrip(a % 4 * 16 + b / 16);
    DigitRoundTrip(b % 16 * 4);
    Recombine(a, 0, 0);
    Recombine(a, b, 0);
  }

  lemma AnyGroup(b: seq<byte>)
    requires 1 <= |b| <= 3
    ensures IsGroup(Group(b), b)
  {
    if |b| == 3 {
      assert b == [b[0], b[1], b[2]];
      FullGroup(b[0], b[1], b[2]);
    } else if |b| == 2 {
      assert b == [b[0], b[1]];
      PaddedGroup(b[0], b[1]);
    } else {
      assert b == [b[0]];
      PaddedGroup(b[0], 0);
    }
  }

  /** Decoding undoes encoding, for every byte sequence. */
  lemma {:induction false} DecodeEncode(b: seq<byte>)
    ensures Decode(Encode(b)) == Some(b)
    decreases |b|
  {
    if 0 < |b| <= 3 {
      AnyGroup(b);
    } else if |b| > 3 {
      AnyGroup(b[..3]);
      DecodeEncode(b[3..]);
      var g, rest := Group(b[..3]), Encode(b[3..]);
      assert |rest| > 0;
      assert Encode(b) == g + rest && (g + rest)[4..] == rest;
      assert b == b[..3] + b[3..];
    }
  }

  /** The digits of a group are its bits, six at a time and the high ones first, filled up with zeros. */
  lemma GroupBits(a: byte, b: byte, c: byte) returns (i: sextet, j: sextet, k: sextet, l: sextet)
    ensures Group([a, b, c]) == [Digit(i), Digit(j), Digit(k), Digit(l)]
    ensures i * 0x40000 + j * 0x1000 + k * 0x40 + l == a * 0x10000 + b * 0x100 + c
  {
    i, j, k, l := a / 4, a % 4 * 16 + b / 16, b % 16 * 4 + c / 64, c % 64;
  }

  lemma PaddedBits(a: byte, b: byte) returns (i: sextet, j: sextet, k: sextet, j': sextet)
    ensures Group([a, b]) == [Digit(i), Digit(j), Digit(k), '='] && i * 0x1000 + j * 0x40 + k == (a * 0x100 + b) * 4
    ensures Group([a]) == [Digit(i), Digit(j'), '=', '='] && i * 0x40 + j' == a * 16
  {
    i, j, k, j' := a / 4, a % 4 * 16 + b / 16, b % 16 * 4, a % 4 * 16;
  }

  /** Whatever text decodes to some bytes has the length of their encoding. */
  lemma {:induction false} DecodeLength(s: string)
    requires Decode(s).Some?
    ensures |s| == |Encode(Decode(s).value)| && (s != "" ==> Decode(s).value != [])
    decreases |s|
  {
    if s == "" || |s| == 4 {
    } else {
      DecodeLength(s[4..]);
      var b, rest := Decode(s).value, Decode(s[4..]).value;
      assert b[3..] == rest;
    }
  }

  /** Whole groups of digits, of which the last may end in one or two padding characters. */
  predicate WellFormed(s: string) {
    && |s| % 4 == 0
    && (forall i :: 0 <= i < |s| - 2 ==> DigitValue(s[i]).Some?)
    && (|s| > 0 ==>
          || (DigitValue(s[|s| - 2]).Some? && (DigitValue(s[|s| - 1]).Some? || s[|s| - 1] == '='))
          || (s[|s| - 2] == '=' && s[|s| - 1] == '='))
  }

  /** Exactly such texts decode. */
  lemma {:induction false} DecodesIff(s: string)
    ensures Decode(s).Some? <==> WellFormed(s)
    decreases |s|
  {
    if s == "" || |s| < 4 {
    } else {
      UngroupIff(s[0], s[1], s[2], s[3]);
      if |s| == 4 {
      } else {
        DecodesIff(s[4..]);
        WellFormedTail(s);
      }
    }
  }

  predicate IsDigit(c: char) { DigitValue(c).Some? }

  lemma UngroupIff(w: char, x: char, y: char, z: char)
    ensures Ungroup(w, x, y, z).Some? <==>
              IsDigit(w) && IsDigit(x) && ((IsDigit(y) && (IsDigit(z) || z == '=')) || (y == '=' && z == '='))
    ensures Ungroup(w, x, y, z).Some? ==> (|Ungroup(w, x, y, z).value| == 3 <==> IsDigit(y) && IsDigit(z))
    ensures !IsDigit('=')
  {
  }

  lemma WellFormedTail(s: string)
    requires |s| > 4
    ensures WellFormed(s) <==> (forall i :: 0 <= i < 4 ==> IsDigit(s[i])) && WellFormed(s[4..])
  {
    var rest := s[4..];
    assert forall i :: 4 <= i < |s| ==> s[i] == rest[i - 4];
    if WellFormed(s) {
      assert |rest| >= 4;
      assert forall i :: 0 <= i < 4 ==> IsDigit(s[i]);
    }
    if WellFormed(rest) { assert |rest| >= 4; }
  }

  /** Encoded text is made of digits and padding: no quote, no line break, no white space. */
  predicate Inert(c: char) { DigitValue(c).Some? || c == '=' }

  lemma GroupInert(b: seq<byte>)
    requires 1 <= |b| <= 3
    ensures forall i :: 0 <= i < 4 ==> Inert(Group(b)[i])
  {
    DigitRoundTrip(b[0] / 4);
    DigitRoundTrip(b[0] % 4 * 16);
    if |b| > 1 {
      DigitRoundTrip(b[0] % 4 * 16 + b[1] / 16);
      DigitRoundTrip(b[1] % 16 * 4);
    }
    if |b| > 2 {
      DigitRoundTrip(b[1] % 16 * 4 + b[2] / 64);
      DigitRoundTrip(b[2] % 64);
    }
  }

  lemma {:induction false} EncodeInert(b: seq<byte>)
    ensures forall i :: 0 <= i < |Encode(b)| ==> Inert(Encode(b)[i])
    decreases |b|
  {
    if 0 < |b| <= 3 {
      GroupInert(b);
    } else if |b| > 3 {
      GroupInert(b[..3]);
      EncodeInert(b[3..]);
    }
  }

  // ---- white space ---------------------------------------------------------------------------------

  /** `unicode.IsSpace`. */
  predicate Space(c: char) {
    || c in {' ', '\t', '\n', '\r', '\U{0B}', '\U{0C}', '\U{85}', '\U{A0}', '\U{1680}', '\U{2028}', '\U{2029}',
        '\U{202F}', '\U{205F}', '\U{3000}'}
    || '\U{2000}' <= c <= '\U{200A}'
  }

  /** The ASCII ones among them. */
  lemma AsciiSpaces(c: char)
    requires c as int < 0x80
    ensures Space(c) <==> 9 <= c as int <= 13 || c as int == 32
  {
  }

  function WordLength(s: string): (n: nat)
    ensures n <= |s|
  {
    if s == "" || Space(s[0]) then 0 else 1 + WordLength(s[1..])
  }

  /** `strings.Fields`. */
  function Fields(s: string): seq<string>
    decreases |s|
  {
    if s == "" then []
    else if Space(s[0]) then Fields(s[1..])
    else [s[..WordLength(s)]] + Fields(s[WordLength(s)..])
  }

  function Glue(xs: seq<string>): string { if xs == [] then "" else xs[0] + Glue(xs[1..]) }

  function NonSpace(s: string): string {
    if s == "" then "" else if Space(s[0]) then NonSpace(s[1..]) else [s[0]] + NonSpace(s[1..])
  }

  lemma {:induction false} WordThenRest(s: string)
    ensures NonSpace(s) == s[..WordLength(s)] + NonSpace(s[WordLength(s)..])
  {
    if s != "" && !Space(s[0]) {
      WordThenRest(s[1..]);
      var n := WordLength(s);
      assert s[..n] == [s[0]] + s[1..][..n - 1] && s[n..] == s[1..][n - 1..];
    } else {
      assert s[0..] == s;
    }
  }

  /** Splitting into fields and joining them drops the white space and nothing else. */
  lemma {:induction false} GlueFields(s: string)
    ensures Glue(Fields(s)) == NonSpace(s)
    decreases |s|
  {
    if s == "" {
    } else {
      if Space(s[0]) {
        GlueFields(s[1..]);
      } else {
        WordThenRest(s);
        GlueFields(s[WordLength(s)..]);
      }
    }
  }

  // ---- internal/provisioner/provisioner.go -----------------------------------------------------------

  function DecodeBase64(content: string): Option<seq<byte>> { Decode(Glue(Fields(content))) }

  /** White space anywhere in the encoded content makes no difference, so content that is some
      encoding with white space scattered in it decodes to the encoded bytes. */
  lemma SpaceIsIgnored(content: string, b: seq<byte>)
    requires NonSpace(content) == Encode(b)
    ensures DecodeBase64(content) == Some(b)
  {
    GlueFields(content);
    DecodeEncode(b);
  }

  lemma DecodeDependsOnNonSpace(s: string, t: string)
    requires NonSpace(s) == NonSpace(t)
    ensures DecodeBase64(s) == DecodeBase64(t)
  {
    GlueFields(s);
    GlueFields(t);
  }

  /** UTF-8, the bytes behind a Go string. */
  function Utf8Char(c: char): seq<byte> {
    var n := c as int;
    if n < 0x80 then [n]
    else if n < 0x800 then [0xC0 + n / 64, 0x80 + n % 64]
    else if n < 0x10000 then [0xE0 + n / 4096, 0x80 + n / 64 % 64, 0x80 + n % 64]
    else [0xF0 + n / 262144, 0x80 + n / 4096 % 64, 0x80 + n / 64 % 64, 0x80 + n % 64]
  }

  function Utf8(s: string): seq<byte> { if s == "" then [] else Utf8Char(s[0]) + Utf8(s[1..]) }

  /** A file to write. */
  datatype File = File(path: string, content: string, encoding: string, append: bool)

  function DecodedContent(f: File): Option<seq<byte>> {
    if f.encoding == "" then Some(Utf8(f.content))
    else if f.encoding == "base64" then DecodeBase64(f.content)
    else None
  }

  /** A file without an encoding stands for the bytes of its text, one in base64 for what that decodes
      to, and any other encoding is refused. */
  lemma ContentTable(f: File)
    ensures f.encoding == "" ==> DecodedContent(f) == Some(Utf8(f.content))
    ensures f.encoding == "base64" ==> DecodedContent(f) == DecodeBase64(f.content)
    ensures f.encoding != "" && f.encoding != "base64" ==> DecodedContent(f) == None
  {
  }

  /** The first character that bytes in UTF-8 (section 3 of RFC 3629) spell: its code and its length. */
  function FirstCode(b: seq<byte>): Option<(int, nat)> {
    if |b| > 0 && b[0] < 0x80 then Some((b[0], 1))
    else if |b| > 1 && 0xC0 <= b[0] < 0xE0 then Some((Bits(b[0], 0xC0, 0x40) + Bits(b[1], 0x80, 1), 2))
    else if |b| > 2 && 0xE0 <= b[0] < 0xF0 then
      Some((Bits(b[0], 0xE0, 0x1000) + Bits(b[1], 0x80, 0x40) + Bits(b[2], 0x80, 1), 3))
    else if |b| > 3 && 0xF0 <= b[0] < 0xF8 then
      Some((Bits(b[0], 0xF0, 0x40000) + Bits(b[1], 0x80, 0x1000) + Bits(b[2], 0x80, 0x40) + Bits(b[3], 0x80, 1), 4))
    else None
  }

  /** What a byte without its mark adds to a code. */
  function Bits(b: int, mark: int, weight: int): int { (b - mark) * weight }

  lemma Utf8FirstCode(c: char, rest: seq<byte>)
    ensures FirstCode(Utf8Char(c) + rest) == Some((c as int, |Utf8Char(c)|))
  {
    var n := c as int;
    assert n < 0x110000;
    assert n / 64 / 64 == n / 4096 && n / 4096 / 64 == n / 262144;
  }

  /** The codes that bytes spell, one after the other. */
  ghost predicate Spells(b: seq<byte>, s: string)
    decreases |s|
  {
    if s == "" then b == []
    else
      var f := FirstCode(b);
      f.Some? && f.value.0 == s[0] as int && f.value.1 <= |b| && Spells(b[f.value.1..], s[1..])
  }

  /** The bytes of a text spell its characters. */
  lemma {:induction false} Utf8Spells(s: string)
    ensures Spells(Utf8(s), s)
    decreases |s|
  {
    if s == "" {
    } else {
      Utf8Spells(s[1..]);
      Utf8FirstCode(s[0], Utf8(s[1..]));
      assert Utf8(s)[|Utf8Char(s[0])|..] == Utf8(s[1..]);
    }
  }
}
