/** Well-formed UTF-8, as section 4 of RFC 3629 defines it. */
module Utf8 {
  import opened ByteCodec

  predicate Tail(b: Byte) { 0x80 <= b < 0xC0 }

  /** The length of the character a byte string starts with, zero when it does not
      start with a well-formed one. */
  function CharLength(text: Bytes): (n: nat)
    ensures n <= |text| && n <= 4
  {
    if |text| == 0 then 0
    else if text[0] < 0x80 then 1
    else if 0xC2 <= text[0] < 0xE0 then
      if |text| >= 2 && Tail(text[1]) then 2 else 0
    else if 0xE0 <= text[0] < 0xF0 then
      if |text| >= 3 && Tail(text[1]) && Tail(text[2])
         && (text[0] == 0xE0 ==> text[1] >= 0xA0) && (text[0] == 0xED ==> text[1] < 0xA0)
      then 3 else 0
    else if 0xF0 <= text[0] < 0xF5 then
      if |text| >= 4 && Tail(text[1]) && Tail(text[2]) && Tail(text[3])
         && (text[0] == 0xF0 ==> text[1] >= 0x90) && (text[0] == 0xF4 ==> text[1] < 0x90)
      then 4 else 0
    else 0
  }

  predicate Valid(text: Bytes)
    decreases |text|
  {
    |text| == 0 || (CharLength(text) > 0 && Valid(text[CharLength(text)..]))
  }
}
