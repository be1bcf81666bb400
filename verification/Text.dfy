/** Python `str` facts used by the terminal code: which characters `str.strip`
    removes, and how many bytes a text takes in UTF-8. */
module Text {

  /** `str.isspace` for one character. */
  predicate IsSpace(c: char) {
    || '\t' <= c <= '\r'
    || '\U{1C}' <= c <= ' '
    || c in {'\U{85}', '\U{A0}', '\U{1680}', '\U{2028}', '\U{2029}', '\U{202F}', '\U{205F}', '\U{3000}'}
    || '\U{2000}' <= c <= '\U{200A}'
  }

  /** `not text.strip()`. */
  predicate Blank(text: string) {
    forall i | 0 <= i < |text| :: IsSpace(text[i])
  }

  /** Bytes of one character in UTF-8 (section 3 of RFC 3629). */
  function CharBytes(c: char): (n: nat)
    ensures 1 <= n <= 4
  {
    if c < '\U{80}' then 1
    else if c < '\U{800}' then 2
    else if c < '\U{10000}' then 3
    else 4
  }

  /** The bytes of one character (section 3 of RFC 3629). */
  function Encode(c: char): (bytes: seq<nat>)
    ensures forall i | 0 <= i < |bytes| :: bytes[i] < 256
  {
    var n := c as int;
    if n < 0x80 then [n]
    else if n < 0x800 then [0xC0 + n / 0x40, 0x80 + n % 0x40]
    else if n < 0x10000 then [0xE0 + n / 0x1000, 0x80 + n / 0x40 % 0x40, 0x80 + n % 0x40]
    else [0xF0 + n / 0x40000, 0x80 + n / 0x1000 % 0x40, 0x80 + n / 0x40 % 0x40, 0x80 + n % 0x40]
  }

  predicate Continues(byte: nat) {
    0x80 <= byte < 0xC0
  }

  /** The code point at the head of some bytes, and how many bytes it took. The
      first byte tells the length, and no code point has a shorter form. */
  function Decode(bytes: seq<nat>): (nat, nat) {
    if bytes == [] then (0, 0)
    else if bytes[0] < 0x80 then (bytes[0], 1)
    else if 0xC0 <= bytes[0] < 0xE0 && |bytes| >= 2 && Continues(bytes[1]) then
      ((bytes[0] - 0xC0) * 0x40 + (bytes[1] - 0x80), 2)
    else if 0xE0 <= bytes[0] < 0xF0 && |bytes| >= 3 && Continues(bytes[1]) && Continues(bytes[2]) then
      ((bytes[0] - 0xE0) * 0x1000 + (bytes[1] - 0x80) * 0x40 + (bytes[2] - 0x80), 3)
    else if 0xF0 <= bytes[0] < 0xF8 && |bytes| >= 4
            && Continues(bytes[1]) && Continues(bytes[2]) && Continues(bytes[3]) then
      ((bytes[0] - 0xF0) * 0x40000 + (bytes[1] - 0x80) * 0x1000 + (bytes[2] - 0x80) * 0x40 + (bytes[3] - 0x80), 4)
    else (0, 0)
  }

  /** The byte count of a character is the length of its encoding, which a decoder
      reads back, whatever follows. */
  lemma EncodingReadsBack(c: char, rest: seq<nat>)
    ensures |Encode(c)| == CharBytes(c)
    ensures Decode(Encode(c) + rest) == (c as int, CharBytes(c))
  {
    var n, bytes := c as int, Encode(c);
    assert forall i | 0 <= i < |bytes| :: (bytes + rest)[i] == bytes[i];
    assert n == n / 0x40 * 0x40 + n % 0x40;
    assert n / 0x40 == n / 0x1000 * 0x40 + n / 0x40 % 0x40;
    assert n / 0x1000 == n / 0x40000 * 0x40 + n / 0x1000 % 0x40;
  }

  function EncodeText(text: string): seq<nat> {
    if text == "" then [] else Encode(text[0]) + EncodeText(text[1..])
  }

  /** The byte count of a text is the length of its encoding. */
  lemma {:induction false} LengthIsEncoded(text: string)
    ensures Utf8Length(text) == |EncodeText(text)|
  {
    if text != "" {
      LengthIsEncoded(text[1..]);
      EncodingReadsBack(text[0], []);
    }
  }

  /** White space, character by character. */
  lemma SpacesExact(c: char)
    ensures IsSpace(c)
            <==> c in {'\t', '\n', '\U{0B}', '\U{0C}', '\r', '\U{1C}', '\U{1D}', '\U{1E}', '\U{1F}', ' ',
                       '\U{85}', '\U{A0}', '\U{1680}', '\U{2000}', '\U{2001}', '\U{2002}', '\U{2003}', '\U{2004}',
                       '\U{2005}', '\U{2006}', '\U{2007}', '\U{2008}', '\U{2009}', '\U{200A}', '\U{2028}',
                       '\U{2029}', '\U{202F}', '\U{205F}', '\U{3000}'}
  {
    var n := c as int;
    assert c == n as char;
  }

  /** `len(text.encode("utf-8"))`. */
  function Utf8Length(text: string): nat {
    if text == "" then 0 else CharBytes(text[0]) + Utf8Length(text[1..])
  }

  lemma {:induction false} Utf8LengthConcat(a: string, b: string)
    ensures Utf8Length(a + b) == Utf8Length(a) + Utf8Length(b)
  {
    if a == "" {
      assert a + b == b;
    } else {
      assert (a + b)[1..] == a[1..] + b;
      Utf8LengthConcat(a[1..], b);
    }
  }

  /** A longer prefix takes at least as many bytes, and one more character
      always takes at least one byte more. */
  lemma Utf8PrefixMonotone(text: string, i: nat, j: nat)
    requires i <= j <= |text|
    ensures Utf8Length(text[..i]) + (j - i) <= Utf8Length(text[..j])
  {
    assert text[..j] == text[..i] + text[i..j];
    Utf8LengthConcat(text[..i], text[i..j]);
    Utf8AtLeastCharacters(text[i..j]);
  }

  lemma {:induction false} Utf8AtLeastCharacters(text: string)
    ensures |text| <= Utf8Length(text) <= 4 * |text|
  {
    if text != "" {
      Utf8AtLeastCharacters(text[1..]);
    }
  }
}
