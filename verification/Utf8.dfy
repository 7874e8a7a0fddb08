/** The number of octets UTF-8 needs, section 3 of RFC 3629. */
module Utf8 {
  /** How many code points `n` octets can hold: 7, 11, 16 or 21 payload bits. */
  function Capacity(n: nat): nat
    requires n <= 4
  {
    match n
    case 0 => 0
    case 1 => 128
    case 2 => 32 * 64
    case 3 => 16 * 64 * 64
    case 4 => 8 * 64 * 64 * 64
  }

  /** The fewest octets that can hold the code point. */
  function CharSize(c: char): (n: nat)
    ensures 1 <= n <= 4
    ensures Capacity(n - 1) <= c as int < Capacity(n)
  {
    var code := c as int;
    if code < 0x80 then 1 else if code < 0x800 then 2 else if code < 0x1_0000 then 3 else 4
  }

  function Size(s: string): nat {
    if s == "" then 0 else CharSize(s[0]) + Size(s[1..])
  }

  /** Between one and four octets a character. */
  lemma {:induction false} SizeBounds(s: string)
    ensures |s| <= Size(s) <= 4 * |s|
  {
    if s != "" {
      SizeBounds(s[1..]);
    }
  }
}
