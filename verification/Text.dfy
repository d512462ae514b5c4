// The text checks every repository applies to its arguments. A `char` is one
// Unicode scalar value; lengths are counted in UTF-8 bytes, as Go counts them.
module Text {

  function Utf8Len(c: char): (n: nat)
  {
    if c as int < 0x80 then 1
    else if c as int < 0x800 then 2
    else if c as int < 0x1_0000 then 3
    else 4
  }

  function ByteLen(s: string): (n: nat)
  {
    if s == "" then 0 else Utf8Len(s[0]) + ByteLen(s[1..])
  }

  lemma {:induction false} AsciiLen(s: string)
    requires forall i | 0 <= i < |s| :: s[i] as int < 0x80
    ensures ByteLen(s) == |s|
  {
    if s != "" {
      AsciiLen(s[1..]);
    }
  }

  // The characters that strings.TrimSpace removes from both ends.
  predicate IsSpace(c: char)
  {
    var n := c as int;
    9 <= n <= 13 || n == 0x20 || n == 0x85 || n == 0xA0 || n == 0x1680 || 0x2000 <= n <= 0x200A
    || n == 0x2028 || n == 0x2029 || n == 0x202F || n == 0x205F || n == 0x3000
  }

  predicate IsControl(c: char)
  {
    c as int < 0x20 || 0x7F <= c as int <= 0x9F
  }

  predicate Trimmed(s: string)
  {
    s == "" || (!IsSpace(s[0]) && !IsSpace(s[|s| - 1]))
  }

  // strings.TrimSpace
  function Trim(s: string): (r: string)
    ensures Trimmed(r) && (Trimmed(s) ==> r == s)
  {
    if s == "" then ""
    else if IsSpace(s[0]) then Trim(s[1..])
    else if IsSpace(s[|s| - 1]) then Trim(s[..|s| - 1])
    else s
  }

  predicate Blank(s: string)
  {
    Trim(s) == ""
  }

  // conversion.validText
  predicate ValidText(s: string, max: nat)
  {
    s != "" && ByteLen(s) <= max && Trimmed(s)
  }

  // order.validText, coupon.validText and coupon.validID also refuse NUL, CR and LF.
  predicate ValidLine(s: string, max: nat)
  {
    ValidText(s, max) && forall i | 0 <= i < |s| :: s[i] !in {'\0', '\r', '\n'}
  }

  // material.text
  predicate ValidLabel(s: string, max: nat, optional: bool)
  {
    if s == "" then optional
    else ByteLen(s) <= max && Trimmed(s) && forall i | 0 <= i < |s| :: !IsControl(s[i])
  }
}
