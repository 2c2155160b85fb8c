// The character classes of the text functions, by the tables of the Unicode Character Database, and lengths in bytes.
module Characters {
  import opened Text
  import opened Utf8

  /** The length of a string in bytes is the length of its encoding. */
  lemma {:induction false} LengthOfEncoding(s: string)
    ensures Utf8Len(s) == |Encode(s)|
  {
    if s != [] {
      LengthOfEncoding(s[1..]);
      assert |EncodeChar(s[0])| == Utf8Width(s[0]);
    }
  }

  /** The 25 characters with the property White_Space, in PropList.txt. */
  lemma WhitespaceIsListed(c: char)
    ensures IsWhitespace(c) <==> c as int in {
      0x09, 0x0A, 0x0B, 0x0C, 0x0D, 0x20, 0x85, 0xA0, 0x1680, 0x2000, 0x2001, 0x2002, 0x2003, 0x2004, 0x2005, 0x2006,
      0x2007, 0x2008, 0x2009, 0x200A, 0x2028, 0x2029, 0x202F, 0x205F, 0x3000}
  {
  }

  /** The 65 characters of the category Cc: the C0 codes, DELETE, and the C1 codes. */
  lemma ControlsAreRanges(c: char)
    ensures IsControl(c) <==> c as int / 0x20 == 0 || c as int == 0x7F || c as int / 0x20 == 4
  {
  }
}
