// Bytes, UTF-8 and unpadded URL-safe Base64 as Go's encoding/base64 has it.
module Bytes {
  import opened Wrappers
  import opened Text

  type byte = b: int | 0 <= b < 256

  function Utf8Char(c: char): (bs: seq<byte>)
    ensures |bs| == Utf8Len(c)
  {
    var n := c as int;
    if n < 0x80 then [n]
    else if n < 0x800 then [0xC0 + n / 64, 0x80 + n % 64]
    else if n < 0x1_0000 then [0xE0 + n / 4096, 0x80 + n / 64 % 64, 0x80 + n % 64]
    else [0xF0 + n / 262144, 0x80 + n / 4096 % 64, 0x80 + n / 64 % 64, 0x80 + n % 64]
  }

  function Utf8(s: string): (bs: seq<byte>)
    ensures |bs| == ByteLen(s)
  {
    if s == "" then [] else Utf8Char(s[0]) + Utf8(s[1..])
  }

  // ---- Decoding UTF-8, section 3 of RFC 3629 ----

  predicate Tail(b: byte)
  {
    0x80 <= b < 0xC0
  }

  // The number of bytes that a character with this first byte takes.
  function Width(b: byte): nat
  {
    if b < 0x80 then 1 else if 0xC2 <= b < 0xE0 then 2 else if 0xE0 <= b < 0xF0 then 3 else if 0xF0 <= b < 0xF5 then 4 else 0
  }

  // What the bits of lead and tail bytes add up to.
  function Bits(lead: int, a: int, b: int, c: int): int
  {
    lead * 262144 + (a - 0x80) * 4096 + (b - 0x80) * 64 + (c - 0x80)
  }

  // The first character. Overlong forms and surrogates are refused.
  function FirstChar(bs: seq<byte>): Option<char>
    requires |bs| > 0
  {
    var n := Width(bs[0]);
    if n == 0 || n > |bs| || (exists i | 1 <= i < n :: !Tail(bs[i])) then None
    else if n == 1 then Some(bs[0] as char)
    else if n == 2 then
      Some(Bits(0, 0x80, bs[0] - 0xC0 + 0x80, bs[1]) as char)
    else if n == 3 then
      var v := Bits(0, bs[0] - 0xE0 + 0x80, bs[1], bs[2]);
      if v < 0x800 || 0xD800 <= v < 0xE000 then None else Some(v as char)
    else
      var v := Bits(bs[0] - 0xF0, bs[1], bs[2], bs[3]);
      if v < 0x1_0000 || v > 0x10_FFFF then None else Some(v as char)
  }

  function DecodeUtf8(bs: seq<byte>): Option<string>
  {
    if bs == [] then Some("")
    else
      var c := FirstChar(bs);
      if c.None? then None
      else
        var rest := DecodeUtf8(bs[Width(bs[0])..]);
        if rest.None? then None else Some([c.value] + rest.value)
  }

  lemma BitsSplit(lead: int, a: int, b: int, c: int)
    requires 0 <= lead < 8 && 0x80 <= a < 0xC0 && 0x80 <= b < 0xC0 && 0x80 <= c < 0xC0
    ensures var v := Bits(lead, a, b, c);
            v / 262144 == lead && 0x80 + v / 4096 % 64 == a && 0x80 + v / 64 % 64 == b && 0x80 + v % 64 == c
  {
    var v := Bits(lead, a, b, c);
    assert v / 64 == lead * 4096 + (a - 0x80) * 64 + (b - 0x80);
    assert v / 4096 == v / 64 / 64 == lead * 64 + (a - 0x80);
  }

  lemma BitsJoin(v: int)
    requires 0 <= v < 0x20_0000
    ensures Bits(v / 262144, 0x80 + v / 4096 % 64, 0x80 + v / 64 % 64, 0x80 + v % 64) == v
  {
    assert v / 4096 == v / 64 / 64 && v / 262144 == v / 4096 / 64;
  }

  lemma FirstCharIs(bs: seq<byte>)
    requires |bs| > 0 && FirstChar(bs).Some?
    ensures Width(bs[0]) <= |bs| && bs[..Width(bs[0])] == Utf8Char(FirstChar(bs).value)
  {
    var n := Width(bs[0]);
    assert n > 1 ==> Tail(bs[1]);
    assert n > 2 ==> Tail(bs[2]);
    assert n > 3 ==> Tail(bs[3]);
    if n == 1 {
      assert bs[..1] == [bs[0]];
    } else if n == 2 {
      assert bs[..2] == [bs[0], bs[1]];
      BitsSplit(0, 0x80, bs[0] - 0xC0 + 0x80, bs[1]);
    } else if n == 3 {
      assert bs[..3] == [bs[0], bs[1], bs[2]];
      BitsSplit(0, bs[0] - 0xE0 + 0x80, bs[1], bs[2]);
    } else {
      assert bs[..4] == [bs[0], bs[1], bs[2], bs[3]];
      BitsSplit(bs[0] - 0xF0, bs[1], bs[2], bs[3]);
    }
  }

  lemma CharIsFirst(c: char, rest: seq<byte>)
    ensures Width(Utf8Char(c)[0]) == Utf8Len(c) && FirstChar(Utf8Char(c) + rest) == Some(c)
  {
    var bs := Utf8Char(c) + rest;
    var n := Utf8Len(c);
    assert bs[0] == Utf8Char(c)[0];
    assert n > 1 ==> bs[1] == Utf8Char(c)[1];
    assert n > 2 ==> bs[2] == Utf8Char(c)[2];
    assert n > 3 ==> bs[3] == Utf8Char(c)[3];
    BitsJoin(c as int);
    BitsRange(c as int);
    hide Bits;
  }

  lemma BitsRange(v: int)
    requires 0 <= v < 0x11_0000
    ensures v < 0x1_0000 ==> v / 262144 == 0 && v / 4096 % 64 == v / 4096 < 16
    ensures v < 0x800 ==> v / 4096 == 0 && v / 64 % 64 == v / 64 < 32
    ensures v / 262144 <= 4
  {
  }

  // Only the UTF-8 form of a text is decoded to it.
  lemma DecodesOnlyUtf8(bs: seq<byte>, s: string)
    ensures DecodeUtf8(bs) == Some(s) <==> bs == Utf8(s)
  {
    hide *;
    if DecodeUtf8(bs) == Some(s) {
      DecodedIsUtf8(bs, s);
    }
    Utf8Decodes(s);
  }

  lemma {:induction false} DecodedIsUtf8(bs: seq<byte>, s: string)
    requires DecodeUtf8(bs) == Some(s)
    ensures bs == Utf8(s)
    decreases |s|
  {
    hide FirstChar, Utf8Char, Utf8Len, Width;
    if bs != [] {
      DecodedRest(bs, s);
      hide DecodeUtf8;
      DecodedIsUtf8(bs[Utf8Len(s[0])..], s[1..]);
      assert bs == bs[..Utf8Len(s[0])] + bs[Utf8Len(s[0])..];
    }
  }

  lemma {:induction false} Utf8Decodes(s: string)
    ensures DecodeUtf8(Utf8(s)) == Some(s)
    decreases |s|
  {
    hide FirstChar, Utf8Char, Utf8Len, Width;
    if s != "" {
      Utf8Decodes(s[1..]);
      WrittenRest(Utf8(s), s);
      DecodeOne(Utf8(s), s[0]);
      hide DecodeUtf8, Utf8;
      assert s == [s[0]] + s[1..];
    }
  }

  lemma DecodedRest(bs: seq<byte>, s: string)
    requires bs != [] && DecodeUtf8(bs) == Some(s)
    ensures s != "" && Utf8Len(s[0]) <= |bs| && bs[..Utf8Len(s[0])] == Utf8Char(s[0]) && DecodeUtf8(bs[Utf8Len(s[0])..]) == Some(s[1..])
  {
    FirstCharIs(bs);
    hide FirstChar, Utf8Char, Width, Utf8Len;
  }

  lemma WrittenRest(bs: seq<byte>, s: string)
    requires s != "" && bs == Utf8(s)
    ensures Utf8Len(s[0]) <= |bs| && bs[..Utf8Len(s[0])] == Utf8Char(s[0]) && bs[Utf8Len(s[0])..] == Utf8(s[1..])
  {
    hide Utf8Char, Utf8Len;
  }

  lemma DecodeOne(bs: seq<byte>, c: char)
    requires Utf8Len(c) <= |bs| && bs[..Utf8Len(c)] == Utf8Char(c) && DecodeUtf8(bs[Utf8Len(c)..]).Some?
    ensures DecodeUtf8(bs) == Some([c] + DecodeUtf8(bs[Utf8Len(c)..]).value)
  {
    CharIsFirst(c, bs[Utf8Len(c)..]);
    assert bs == Utf8Char(c) + bs[Utf8Len(c)..];
    assert bs[0] == Utf8Char(c)[0] && Utf8Len(c) > 0;
    hide FirstChar, Utf8Char, Width, Utf8Len;
  }

  type sextet = v: int | 0 <= v < 64

  function Symbol(v: sextet): (c: char)
    ensures Value(c) == Some(v) && c != '\r' && c != '\n'
  {
    if v < 26 then ('A' as int + v) as char
    else if v < 52 then ('a' as int + v - 26) as char
    else if v < 62 then ('0' as int + v - 52) as char
    else if v == 62 then '-'
    else '_'
  }

  function Value(c: char): Option<sextet>
  {
    if 'A' <= c <= 'Z' then Some(c as int - 'A' as int)
    else if 'a' <= c <= 'z' then Some(c as int - 'a' as int + 26)
    else if '0' <= c <= '9' then Some(c as int - '0' as int + 52)
    else if c == '-' then Some(62)
    else if c == '_' then Some(63)
    else None
  }

  // Three bytes as four six-bit values, and back; a missing byte counts as zero.
  function Unpack(x: byte, y: byte, z: byte): (sextet, sextet, sextet, sextet)
  {
    (x / 4, x % 4 * 16 + y / 16, y % 16 * 4 + z / 64, z % 64)
  }

  function Pack(a: sextet, b: sextet, c: sextet, d: sextet): (byte, byte, byte)
  {
    (a * 4 + b / 16, b % 16 * 16 + c / 4, c % 4 * 64 + d)
  }

  lemma PackUnpack(x: byte, y: byte, z: byte)
    ensures var (a, b, c, d) := Unpack(x, y, z); Pack(a, b, c, d) == (x, y, z)
  {
    var (a, b, c, d) := Unpack(x, y, z);
    assert b / 16 == x % 4 && b % 16 == y / 16 by { Parts(x % 4, 16, y / 16); }
    assert c / 4 == y % 16 && c % 4 == z / 64 by { Parts(y % 16, 4, z / 64); }
    assert a == x / 4 && d == z % 64;
    hide Unpack;
    assert x / 4 * 4 + x % 4 == x && y / 16 * 16 + y % 16 == y && z / 64 * 64 + z % 64 == z;
  }

  lemma UnpackPack(a: sextet, b: sextet, c: sextet, d: sextet)
    ensures var (x, y, z) := Pack(a, b, c, d); Unpack(x, y, z) == (a, b, c, d)
  {
    var (x, y, z) := Pack(a, b, c, d);
    assert x / 4 == a && x % 4 == b / 16 by { Parts(a, 4, b / 16); }
    assert y / 16 == b % 16 && y % 16 == c / 4 by { Parts(b % 16, 16, c / 4); }
    assert z / 64 == c % 4 && z % 64 == d by { Parts(c % 4, 64, d); }
    hide Pack;
    assert x % 4 * 16 + y / 16 == b && y % 16 * 4 + z / 64 == c;
  }

  lemma Parts(high: int, m: int, low: int)
    requires m in {4, 16, 64} && 0 <= low < m
    ensures (high * m + low) / m == high && (high * m + low) % m == low
  {
  }

  // RawURLEncoding.EncodeToString
  function Encode(bs: seq<byte>): (s: string)
    ensures |s| == (4 * |bs| + 2) / 3
  {
    if |bs| == 0 then ""
    else if |bs| == 1 then
      var (a, b, _, _) := Unpack(bs[0], 0, 0); [Symbol(a), Symbol(b)]
    else if |bs| == 2 then
      var (a, b, c, _) := Unpack(bs[0], bs[1], 0); [Symbol(a), Symbol(b), Symbol(c)]
    else
      var (a, b, c, d) := Unpack(bs[0], bs[1], bs[2]); [Symbol(a), Symbol(b), Symbol(c), Symbol(d)] + Encode(bs[3..])
  }

  // The decoder skips line ends anywhere in its input.
  function WithoutLineEnds(s: string): string
  {
    if s == "" then "" else (if s[0] == '\r' || s[0] == '\n' then "" else [s[0]]) + WithoutLineEnds(s[1..])
  }

  // Strict decoding refuses non-zero trailing padding bits.
  function DecodeSymbols(s: string, strict: bool): Option<seq<byte>>
  {
    if |s| == 0 then Some([])
    else if |s| == 1 || Value(s[0]).None? || Value(s[1]).None? then None
    else if |s| == 2 then
      var (x, y, _) := Pack(Value(s[0]).value, Value(s[1]).value, 0, 0);
      if strict && y != 0 then None else Some([x])
    else if Value(s[2]).None? then None
    else if |s| == 3 then
      var (x, y, z) := Pack(Value(s[0]).value, Value(s[1]).value, Value(s[2]).value, 0);
      if strict && z != 0 then None else Some([x, y])
    else if Value(s[3]).None? then None
    else
      var (x, y, z) := Pack(Value(s[0]).value, Value(s[1]).value, Value(s[2]).value, Value(s[3]).value);
      var rest := DecodeSymbols(s[4..], strict);
      if rest.None? then None else Some([x, y, z] + rest.value)
  }

  function Decode(s: string, strict: bool): Option<seq<byte>>
  {
    DecodeSymbols(WithoutLineEnds(s), strict)
  }

  lemma ValueSymbol(c: char)
    ensures Value(c).Some? ==> Symbol(Value(c).value) == c && c != '\r' && c != '\n'
  {
  }

  lemma {:induction false} NoLineEnds(s: string)
    requires forall i | 0 <= i < |s| :: s[i] != '\r' && s[i] != '\n'
    ensures WithoutLineEnds(s) == s
  {
    if s != "" {
      NoLineEnds(s[1..]);
    }
  }

  lemma {:induction false} EncodeHasNoLineEnds(bs: seq<byte>)
    ensures WithoutLineEnds(Encode(bs)) == Encode(bs)
  {
    if |bs| > 2 {
      EncodeHasNoLineEnds(bs[3..]);
      assert Encode(bs)[4..] == Encode(bs[3..]);
    }
    OnlySymbols(bs);
    NoLineEnds(Encode(bs));
  }

  lemma {:induction false} OnlySymbols(bs: seq<byte>)
    ensures forall i | 0 <= i < |Encode(bs)| :: Encode(bs)[i] != '\r' && Encode(bs)[i] != '\n'
  {
    hide Unpack, Symbol;
    if |bs| > 2 {
      OnlySymbols(bs[3..]);
      assert Encode(bs)[4..] == Encode(bs[3..]);
      assert forall i | 4 <= i < |Encode(bs)| :: Encode(bs)[i] == Encode(bs[3..])[i - 4];
    }
  }

  // What is encoded is decoded again, strictly or not.
  lemma DecodeEncode(bs: seq<byte>, strict: bool)
    ensures Decode(Encode(bs), strict) == Some(bs)
  {
    OnlySymbols(bs);
    NoLineEnds(Encode(bs));
    DecodeEncodeSymbols(bs, strict);
  }

  lemma {:induction false} DecodeEncodeSymbols(bs: seq<byte>, strict: bool)
    ensures DecodeSymbols(Encode(bs), strict) == Some(bs)
  {
    if bs != [] {
      var x, y, z := bs[0], if |bs| > 1 then bs[1] else 0, if |bs| > 2 then bs[2] else 0;
      var (a, b, c, d) := Unpack(x, y, z);
      PackUnpack(x, y, z);
      if |bs| <= 2 {
        UnpackZero(x, y);
      }
      hide Unpack, Pack;
      hide Symbol, Value;
      if |bs| == 1 {
        assert bs == [x];
      } else if |bs| == 2 {
        assert bs == [x, y];
      } else {
        DecodeEncodeSymbols(bs[3..], strict);
        assert Encode(bs)[4..] == Encode(bs[3..]);
        assert bs == [x, y, z] + bs[3..];
      }
    }
  }

  lemma UnpackZero(x: byte, y: byte)
    ensures Unpack(x, y, 0).3 == 0 && (y == 0 ==> Unpack(x, y, 0).2 == 0)
  {
  }

  // Strictly decoded symbols are the one encoding of what they stand for.
  lemma {:induction false} EncodeDecode(s: string)
    requires DecodeSymbols(s, true).Some?
    ensures Encode(DecodeSymbols(s, true).value) == s
  {
    if 2 <= |s| <= 3 {
      EncodeDecodeTail(s);
    } else if |s| >= 4 {
      EncodeDecode(s[4..]);
      EncodeDecodeQuad(s);
      assert s == s[..4] + s[4..];
    }
  }

  lemma EncodeDecodeTail(s: string)
    requires DecodeSymbols(s, true).Some? && 2 <= |s| <= 3
    ensures Encode(DecodeSymbols(s, true).value) == s
  {
    var a, b := Value(s[0]).value, Value(s[1]).value;
    var c: sextet := if |s| == 3 then Value(s[2]).value else 0;
    ValueSymbol(s[0]);
    ValueSymbol(s[1]);
    if |s| == 3 {
      ValueSymbol(s[2]);
      assert s == [s[0], s[1], s[2]];
    } else {
      assert s == [s[0], s[1]];
    }
    UnpackPack(a, b, c, 0);
    hide Unpack, Pack, Symbol, Value;
  }

  lemma EncodeDecodeQuad(s: string)
    requires DecodeSymbols(s, true).Some? && |s| >= 4
    ensures DecodeSymbols(s[4..], true).Some?
    ensures Encode(DecodeSymbols(s, true).value) == s[..4] + Encode(DecodeSymbols(s[4..], true).value)
  {
    hide *;
    DecodeQuad(s);
    ValueSymbol(s[0]);
    ValueSymbol(s[1]);
    ValueSymbol(s[2]);
    ValueSymbol(s[3]);
    var a, b, c, d := Value(s[0]).value, Value(s[1]).value, Value(s[2]).value, Value(s[3]).value;
    EncodePacked(a, b, c, d, DecodeSymbols(s[4..], true).value);
    FirstFour(s);
  }

  lemma FirstFour(s: string)
    requires |s| >= 4
    ensures s[..4] == [s[0], s[1], s[2], s[3]]
  {
  }

  function Packed(a: sextet, b: sextet, c: sextet, d: sextet): (bs: seq<byte>)
    ensures |bs| == 3
  {
    var (x, y, z) := Pack(a, b, c, d);
    [x, y, z]
  }

  lemma EncodePacked(a: sextet, b: sextet, c: sextet, d: sextet, rest: seq<byte>)
    ensures Encode(Packed(a, b, c, d) + rest) == [Symbol(a), Symbol(b), Symbol(c), Symbol(d)] + Encode(rest)
  {
    UnpackPack(a, b, c, d);
    var bs := Packed(a, b, c, d);
    EncodeQuad(bs + rest);
    hide Encode, Pack, Unpack, Symbol;
    assert (bs + rest)[3..] == rest;
  }

  lemma DecodeQuad(s: string)
    requires DecodeSymbols(s, true).Some? && |s| >= 4
    ensures Value(s[0]).Some? && Value(s[1]).Some? && Value(s[2]).Some? && Value(s[3]).Some?
            && DecodeSymbols(s[4..], true).Some?
    ensures DecodeSymbols(s, true).value
         == Packed(Value(s[0]).value, Value(s[1]).value, Value(s[2]).value, Value(s[3]).value) + DecodeSymbols(s[4..], true).value
  {
    hide Pack, Value;
  }

  lemma EncodeQuad(bs: seq<byte>)
    requires |bs| >= 3
    ensures var (a, b, c, d) := Unpack(bs[0], bs[1], bs[2]);
            Encode(bs) == [Symbol(a), Symbol(b), Symbol(c), Symbol(d)] + Encode(bs[3..])
  {
  }

  // ---- Spellings ----

  // Read strictly and without line ends, each byte string has one spelling.
  lemma OneStrictSpelling(s: string, bs: seq<byte>)
    ensures Encode(bs) == s <==> WithoutLineEnds(s) == s && Decode(s, true) == Some(bs)
  {
    if WithoutLineEnds(s) == s && Decode(s, true) == Some(bs) {
      EncodeDecode(s);
    }
    EncodeHasNoLineEnds(bs);
    DecodeEncode(bs, true);
  }

  // A line end may stand behind any spelling.
  lemma LineEndIgnored(s: string, strict: bool)
    ensures Decode(s + "\n", strict) == Decode(s, strict)
  {
    LineEndsAppend(s, "\n");
    assert WithoutLineEnds("\n") == "" by { assert "\n"[1..] == ""; }
    assert WithoutLineEnds(s + "\n") == WithoutLineEnds(s);
  }

  lemma {:induction false} LineEndsAppend(s: string, t: string)
    ensures WithoutLineEnds(s + t) == WithoutLineEnds(s) + WithoutLineEnds(t)
  {
    if s == "" {
      assert s + t == t;
    } else {
      assert (s + t)[0] == s[0] && (s + t)[1..] == s[1..] + t;
      LineEndsAppend(s[1..], t);
    }
  }

  // Read leniently, a byte string that does not fill its last symbol has a
  // second spelling of the same length, which strict reading refuses.
  lemma SecondSpelling(bs: seq<byte>) returns (s: string)
    requires |bs| % 3 != 0
    ensures |s| == |Encode(bs)| && s != Encode(bs) && WithoutLineEnds(s) == s
    ensures Decode(s, false) == Some(bs) && Decode(s, true) == None
  {
    s := SecondSymbols(bs);
    NoLineEnds(s);
  }

  lemma {:induction false} SecondSymbols(bs: seq<byte>) returns (s: string)
    requires |bs| % 3 != 0
    ensures |s| == |Encode(bs)| && s != Encode(bs) && '\r' !in s && '\n' !in s
    ensures DecodeSymbols(s, false) == Some(bs) && DecodeSymbols(s, true) == None
  {
    if |bs| <= 2 {
      s := SecondTail(bs);
    } else {
      var rest := SecondSymbols(bs[3..]);
      QuadThen(bs, rest);
      hide *;
      s := Quad(bs) + rest;
      assert s[4..] == rest && Encode(bs)[4..] == Encode(bs[3..]);
    }
  }

  function Quad(bs: seq<byte>): (s: string)
    requires |bs| >= 3
    ensures |s| == 4 && '\r' !in s && '\n' !in s
  {
    var (a, b, c, d) := Unpack(bs[0], bs[1], bs[2]);
    [Symbol(a), Symbol(b), Symbol(c), Symbol(d)]
  }

  lemma QuadThen(bs: seq<byte>, rest: string)
    requires |bs| >= 3 && |rest| >= 2
    ensures Encode(bs) == Quad(bs) + Encode(bs[3..])
    ensures DecodeSymbols(rest, false) == Some(bs[3..]) ==> DecodeSymbols(Quad(bs) + rest, false) == Some(bs)
    ensures DecodeSymbols(rest, true) == None ==> DecodeSymbols(Quad(bs) + rest, true) == None
  {
    DecodeOn(bs, rest, false);
    DecodeOn(bs, rest, true);
    hide DecodeSymbols, Unpack, Symbol;
    assert bs == bs[..3] + bs[3..];
  }

  lemma DecodeOn(bs: seq<byte>, rest: string, strict: bool)
    requires |bs| >= 3 && |rest| >= 2
    ensures DecodeSymbols(rest, strict).None? ==> DecodeSymbols(Quad(bs) + rest, strict).None?
    ensures DecodeSymbols(rest, strict).Some? ==>
              DecodeSymbols(Quad(bs) + rest, strict) == Some(bs[..3] + DecodeSymbols(rest, strict).value)
  {
    PackUnpack(bs[0], bs[1], bs[2]);
    hide Unpack, Pack, Symbol, Value;
    assert (Quad(bs) + rest)[4..] == rest && bs[..3] == [bs[0], bs[1], bs[2]];
  }

  lemma SecondTail(bs: seq<byte>) returns (s: string)
    requires 1 <= |bs| <= 2
    ensures |s| == |Encode(bs)| && s != Encode(bs) && '\r' !in s && '\n' !in s
    ensures DecodeSymbols(s, false) == Some(bs) && DecodeSymbols(s, true) == None
  {
    var x := bs[0];
    if |bs| == 1 {
      var (a, b, _, _) := Unpack(x, 0, 0);
      Parts(x % 4, 16, 1);
      s := [Symbol(a), Symbol(b + 1)];
      assert Value(s[1]) == Some(b + 1) && Value(Encode(bs)[1]) == Some(b);
      hide Symbol, Value;
      assert bs == [x];
    } else {
      var y := bs[1];
      var (a, b, c, _) := Unpack(x, y, 0);
      Parts(x % 4, 16, y / 16);
      Parts(y % 16, 4, 1);
      s := [Symbol(a), Symbol(b), Symbol(c + 1)];
      assert Value(s[2]) == Some(c + 1) && Value(Encode(bs)[2]) == Some(c);
      hide Symbol, Value;
      assert bs == [x, y];
    }
  }
}
