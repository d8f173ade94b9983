/** Hexadecimal digits, as read by `parseInt(s, 16)` and written by encoders. */
module Hex {
  import opened Wrappers

  /** The value of a hexadecimal digit, either case. */
  function DigitValue(c: char): (r: Option<nat>)
    ensures r.Some? ==> r.value < 16
  {
    if '0' <= c <= '9' then Some(c as int - '0' as int)
    else if 'a' <= c <= 'f' then Some(c as int - 'a' as int + 10)
    else if 'A' <= c <= 'F' then Some(c as int - 'A' as int + 10)
    else None
  }

  /** The digit for `d`, with upper-case letters. */
  function UpperDigit(d: nat): (c: char)
    requires d < 16
    ensures DigitValue(c) == Some(d)
    ensures d >= 10 ==> 'A' <= c <= 'F'
  {
    if d < 10 then ('0' as int + d) as char else ('A' as int + d - 10) as char
  }

  /** The digit for `d`, with lower-case letters. */
  function LowerDigit(d: nat): (c: char)
    requires d < 16
    ensures DigitValue(c) == Some(d)
    ensures d >= 10 ==> 'a' <= c <= 'f'
  {
    if d < 10 then ('0' as int + d) as char else ('a' as int + d - 10) as char
  }
}
