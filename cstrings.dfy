/** C strings as the string builder sees them: byte sequences that end at their first zero byte. */
module CStrings {

  /** A C `char`: one byte. */
  newtype Byte = b: int | 0 <= b < 256

  /** The zero byte that terminates a C string. */
  const NUL: Byte := 0

  /** The characters of the NUL-terminated string held in `text`: everything before its first
      zero byte. A C caller must hand over a terminated string, hence the requires. */
  function CStr(text: seq<Byte>): (s: seq<Byte>)
    requires NUL in text
    ensures |s| < |text| && text[..|s|] == s
    ensures text[|s|] == NUL && NUL !in s
  {
    if text[0] == NUL then []
    else
      assert text == [text[0]] + text[1..];
      [text[0]] + CStr(text[1..])
  }

  /** Reading back a string that was terminated after `s` yields `s` again. */
  lemma {:induction false} CStrOfTerminated(s: seq<Byte>)
    requires NUL !in s
    ensures CStr(s + [NUL]) == s
  {
    if s != [] {
      assert (s + [NUL])[1..] == s[1..] + [NUL];
      CStrOfTerminated(s[1..]);
    }
  }
}
