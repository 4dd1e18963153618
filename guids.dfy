/**
 The text of a freshly generated request id, `Guid.NewGuid().ToString()`.
 Generating the GUID is left to the caller (it is random); what is modelled
 is the default ("D") text form: 32 lower-case hexadecimal digits in groups
 of 8-4-4-4-12 separated by hyphens, 36 characters in all.
 */
module Guids {

  /** The value of one hexadecimal digit. */
  type Nibble = n: int | 0 <= n < 16

  /** A GUID, as the 32 hexadecimal digits of its 128-bit value in the order
      the "D" format prints them. */
  type Guid = s: seq<Nibble> | |s| == 32 witness seq(32, _ => 0)

  predicate IsLowerHexDigit(c: char) {
    '0' <= c <= '9' || 'a' <= c <= 'f'
  }

  /** The value a lower-case hexadecimal digit stands for. */
  function DigitValue(c: char): Nibble
    requires IsLowerHexDigit(c)
  {
    if c <= '9' then c as int - '0' as int else c as int - 'a' as int + 10
  }

  /** The lower-case digit for a nibble; DigitValue reads it back. */
  function HexDigit(n: Nibble): (c: char)
    ensures IsLowerHexDigit(c)
    ensures DigitValue(c) == n
  {
    if n < 10 then ('0' as int + n) as char else ('a' as int + n - 10) as char
  }

  /** The digits of a group, one character per nibble, most significant first. */
  function Hex(digits: seq<Nibble>): (s: string)
    ensures |s| == |digits|
    ensures forall i :: 0 <= i < |digits| ==> s[i] == HexDigit(digits[i])
  {
    if digits == [] then "" else [HexDigit(digits[0])] + Hex(digits[1..])
  }

  /** Where the j-th digit of a GUID stands in its text: one place further
      right for every hyphen before it. */
  function Position(j: nat): nat {
    if j < 8 then j
    else if j < 12 then j + 1
    else if j < 16 then j + 2
    else if j < 20 then j + 3
    else j + 4
  }

  predicate IsHyphenPosition(i: int) {
    i == 8 || i == 13 || i == 18 || i == 23
  }

  /** `Guid.ToString()`: the "D" format. */
  function Format(g: Guid): (s: string)
    ensures |s| == 36
    ensures forall i :: 0 <= i < |s| ==>
      if IsHyphenPosition(i) then s[i] == '-' else IsLowerHexDigit(s[i])
    ensures forall j :: 0 <= j < 32 ==> s[Position(j)] == HexDigit(g[j])
  {
    var s := Hex(g[..8]) + "-" + Hex(g[8..12]) + "-" + Hex(g[12..16]) + "-"
             + Hex(g[16..20]) + "-" + Hex(g[20..]);
    assert forall j :: 0 <= j < 32 ==> s[Position(j)] == HexDigit(g[j]) by {
      forall j | 0 <= j < 32 ensures s[Position(j)] == HexDigit(g[j]) {
        if j < 8 {
          assert s[j] == Hex(g[..8])[j];
        } else if j < 12 {
          assert s[j + 1] == Hex(g[8..12])[j - 8];
        } else if j < 16 {
          assert s[j + 2] == Hex(g[12..16])[j - 12];
        } else if j < 20 {
          assert s[j + 3] == Hex(g[16..20])[j - 16];
        } else {
          assert s[j + 4] == Hex(g[20..])[j - 20];
        }
      }
    }
    s
  }

  /** Distinct GUIDs have distinct texts: the text loses nothing. */
  lemma FormatInjective(g: Guid, h: Guid)
    requires Format(g) == Format(h)
    ensures g == h
  {
  }
}
