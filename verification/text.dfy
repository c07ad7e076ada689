/**
 * .NET strings as seen by `string.Length`, `[StringLength]` and `nvarchar(n)`: a count of
 * UTF-16 code units, where a character outside the Basic Multilingual Plane takes two.
 */
module Text {

  /** The character is encoded as a single UTF-16 code unit. */
  predicate InBmp(c: char) {
    c as int < 0x1_0000
  }

  function Utf16Units(c: char): nat {
    if InBmp(c) then 1 else 2
  }

  /** `s.Length` in .NET. It equals the number of characters exactly when all of them are in the BMP. */
  function Utf16Length(s: string): (n: nat)
    ensures |s| <= n <= 2 * |s|
    ensures n == |s| <==> forall i :: 0 <= i < |s| ==> InBmp(s[i])
  {
    if s == "" then 0
    else
      var rest := s[1..];
      assert forall i :: 1 <= i < |s| ==> s[i] == rest[i - 1];
      Utf16Units(s[0]) + Utf16Length(rest)
  }

  /** `char.IsWhiteSpace`: the Unicode separators and the control characters U+0009..U+000D, U+0085. */
  predicate IsWhiteSpace(c: char) {
    var n := c as int;
    || 0x09 <= n <= 0x0D
    || n == 0x20 || n == 0x85 || n == 0xA0 || n == 0x1680
    || 0x2000 <= n <= 0x200A
    || n == 0x2028 || n == 0x2029 || n == 0x202F || n == 0x205F || n == 0x3000
  }

  /** `string.IsNullOrWhiteSpace` for a non-null string. */
  predicate IsBlank(s: string) {
    forall i :: 0 <= i < |s| ==> IsWhiteSpace(s[i])
  }

  /** Lengths in UTF-16 units of sample strings, one of them outside the BMP. */
  lemma Utf16LengthExamples()
    ensures Utf16Length("abcd") == 4
    ensures Utf16Length("\U{1F600}abcd") == 6
  {
  }
}
