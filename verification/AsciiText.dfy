/** Program text as the bytes it is made of. */
module AsciiText {
  import opened Utf8

  function Ascii(s: string): seq<Byte>
    requires forall k :: 0 <= k < |s| ==> s[k] < 128 as char
  {
    seq(|s|, k requires 0 <= k < |s| => s[k] as int)
  }
}
