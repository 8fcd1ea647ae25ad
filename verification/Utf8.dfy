/** UTF-8 encoding of strings, which never contain surrogates here. */
module Utf8 {
  import opened Text

  type Byte = b: int | 0 <= b < 256

  function EncodeChar(c: char): (bytes: seq<Byte>)
    ensures 1 <= |bytes| <= 4
  {
    var n := c as int;
    if n < 0x80 then [n]
    else if n < 0x800 then [0xC0 + n / 0x40, 0x80 + n % 0x40]
    else if n < 0x10000 then [0xE0 + n / 0x1000, 0x80 + n / 0x40 % 0x40, 0x80 + n % 0x40]
    else [0xF0 + n / 0x40000, 0x80 + n / 0x1000 % 0x40, 0x80 + n / 0x40 % 0x40, 0x80 + n % 0x40]
  }

  function Encode(s: string): seq<Byte> {
    if s == "" then [] else EncodeChar(s[0]) + Encode(s[1..])
  }

  /** The lead byte tells how many bytes a character takes. */
  lemma LeadByte(c: char)
    ensures var b := EncodeChar(c)[0];
            |EncodeChar(c)| == if b < 0x80 then 1 else if b < 0xE0 then 2 else if b < 0xF0 then 3 else 4
  {
  }

  lemma EncodeCharInjective(c: char, d: char)
    requires EncodeChar(c) == EncodeChar(d)
    ensures c == d
  {
    LeadByte(c);
    LeadByte(d);
    CodePoint(c);
    CodePoint(d);
  }

  /** The code point that a character's bytes spell. */
  function Decoded(b: seq<Byte>): int
    requires 1 <= |b| <= 4
  {
    var lead: int := b[0];
    match |b|
    case 1 => lead
    case 2 => Six(lead - 0xC0, b[1])
    case 3 => Six(Six(lead - 0xE0, b[1]), b[2])
    case 4 => Six(Six(Six(lead - 0xF0, b[1]), b[2]), b[3])
  }

  /** `high` with the six bits of a continuation byte behind it. */
  function Six(high: int, b: int): int { high * 0x40 + (b - 0x80) }

  lemma CodePoint(c: char)
    ensures Decoded(EncodeChar(c)) == c as int
  {
    var n := c as int;
    SixBits(n);
    SixBits(n / 0x40);
    SixBits(n / 0x1000);
    assert n / 0x40 / 0x40 == n / 0x1000 && n / 0x1000 / 0x40 == n / 0x40000;
  }

  lemma SixBits(n: int)
    ensures Six(n / 0x40, 0x80 + n % 0x40) == n
  {
  }

  lemma {:induction false} EncodeInjective(s: string, t: string)
    requires Encode(s) == Encode(t)
    ensures s == t
  {
    if s != "" && t != "" {
      var b, c := EncodeChar(s[0]), EncodeChar(t[0]);
      assert Encode(s)[0] == b[0] && Encode(t)[0] == c[0];
      LeadByte(s[0]);
      LeadByte(t[0]);
      SplitAt(b, Encode(s[1..]), c, Encode(t[1..]));
      EncodeCharInjective(s[0], t[0]);
      EncodeInjective(s[1..], t[1..]);
      assert s == [s[0]] + s[1..] && t == [t[0]] + t[1..];
    }
  }

  /** A byte with its tag taken off, when it carries that tag. */
  predicate Tagged(b: Byte, tag: int, bits: int, payload: int) { b == tag + payload && 0 <= payload < bits }

  /** The layout of RFC 3629, section 3: the shortest of four forms that fits, the
      payload bits in order, most significant first. */
  lemma Layout(c: char)
    ensures var b, n := EncodeChar(c), c as int;
            && (n <= 0x7F <==> |b| == 1) && (0x80 <= n <= 0x7FF <==> |b| == 2)
            && (0x800 <= n <= 0xFFFF <==> |b| == 3) && (0x10000 <= n <==> |b| == 4)
            && (|b| == 1 ==> b[0] == n)
            && (|b| == 2 ==> exists x, y :: Tagged(b[0], 0xC0, 0x20, x) && Tagged(b[1], 0x80, 0x40, y)
                               && n == x * 0x40 + y)
            && (|b| == 3 ==> exists x, y, z :: Tagged(b[0], 0xE0, 0x10, x) && Tagged(b[1], 0x80, 0x40, y)
                               && Tagged(b[2], 0x80, 0x40, z) && n == x * 0x1000 + y * 0x40 + z)
            && (|b| == 4 ==> exists x, y, z, w :: Tagged(b[0], 0xF0, 0x08, x) && Tagged(b[1], 0x80, 0x40, y)
                               && Tagged(b[2], 0x80, 0x40, z) && Tagged(b[3], 0x80, 0x40, w)
                               && n == x * 0x40000 + y * 0x1000 + z * 0x40 + w)
  {
    CodePoint(c);
    var b := EncodeChar(c);
    match |b|
    case 1 =>
    case 2 =>
      assert Tagged(b[0], 0xC0, 0x20, b[0] - 0xC0) && Tagged(b[1], 0x80, 0x40, b[1] - 0x80);
    case 3 =>
      assert Tagged(b[0], 0xE0, 0x10, b[0] - 0xE0) && Tagged(b[1], 0x80, 0x40, b[1] - 0x80);
      assert Tagged(b[2], 0x80, 0x40, b[2] - 0x80);
    case 4 =>
      assert Tagged(b[0], 0xF0, 0x08, b[0] - 0xF0) && Tagged(b[1], 0x80, 0x40, b[1] - 0x80);
      assert Tagged(b[2], 0x80, 0x40, b[2] - 0x80) && Tagged(b[3], 0x80, 0x40, b[3] - 0x80);
  }

  /** Text is encoded character by character, in order. */
  lemma {:induction false} EncodeJoins(s: string, t: string)
    ensures Encode(s + t) == Encode(s) + Encode(t)
  {
    if s == "" {
      assert s + t == t;
    } else {
      EncodeJoins(s[1..], t);
      assert (s + t)[0] == s[0] && (s + t)[1..] == s[1..] + t;
      Assoc(EncodeChar(s[0]), Encode(s[1..]), Encode(t));
    }
  }
}
