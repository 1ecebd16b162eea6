/** Bitwise operations on 64-bit words held as natural numbers. */
module Bits {

  const WORD: nat := 0x1_0000_0000_0000_0000

  function Xor(a: nat, b: nat): nat
    decreases a + b
  {
    if a == 0 then b else if b == 0 then a
    else 2 * Xor(a / 2, b / 2) + (if a % 2 == b % 2 then 0 else 1)
  }

  /** Rotation to the left by 23 places. */
  function RotateLeft23(n: nat): nat {
    (n * 0x80_0000) % WORD + n / 0x200_0000_0000
  }

  /** The bytes of one character in UTF-8. */
  function Utf8(c: char): seq<nat> {
    var n := c as nat;
    if n < 0x80 then [n]
    else if n < 0x800 then [0xC0 + n / 0x40, 0x80 + n % 0x40]
    else if n < 0x1_0000 then [0xE0 + n / 0x1000, 0x80 + n / 0x40 % 0x40, 0x80 + n % 0x40]
    else [0xF0 + n / 0x4_0000, 0x80 + n / 0x1000 % 0x40, 0x80 + n / 0x40 % 0x40, 0x80 + n % 0x40]
  }

  function Bytes(s: string): seq<nat> {
    if s == [] then [] else Utf8(s[0]) + Bytes(s[1..])
  }

  /** The 64-bit FNV-1a hash of a list of bytes, continued from `hash`. */
  function FoldBytes(bytes: seq<nat>, hash: nat): nat
    decreases |bytes|
  {
    if bytes == [] then hash else FoldBytes(bytes[1..], Xor(hash, bytes[0]) * 0x100_0000_01b3 % WORD)
  }
}
