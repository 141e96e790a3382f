/**
 * `string.IsNullOrWhiteSpace`, which the quoting controller uses for its
 * customer-name and product-name guards, over `char.IsWhiteSpace`.
 */
module Strings {

  import opened Wrappers

  /** The 25 white-space characters of .NET, written out one by one. */
  const WhiteSpaceChars: set<char> := {
    '\U{0009}', '\U{000A}', '\U{000B}', '\U{000C}', '\U{000D}', '\U{0020}', '\U{0085}', '\U{00A0}',
    '\U{1680}', '\U{2000}', '\U{2001}', '\U{2002}', '\U{2003}', '\U{2004}', '\U{2005}', '\U{2006}',
    '\U{2007}', '\U{2008}', '\U{2009}', '\U{200A}', '\U{2028}', '\U{2029}', '\U{202F}', '\U{205F}',
    '\U{3000}' }

  /**
   * `char.IsWhiteSpace`: the Unicode space separators (U+0020, U+00A0, U+1680,
   * U+2000 to U+200A, U+202F, U+205F, U+3000), the line and paragraph
   * separators U+2028 and U+2029, and the control characters U+0009 to U+000D
   * and U+0085.
   */
  predicate IsWhiteSpace(c: char)
    ensures IsWhiteSpace(c) <==> c in WhiteSpaceChars
  {
    var u := c as int;
    u == 0x20 || u == 0xA0 || u == 0x1680 || (0x2000 <= u <= 0x200A) || u == 0x202F || u == 0x205F || u == 0x3000
    || u == 0x2028 || u == 0x2029
    || (0x09 <= u <= 0x0D) || u == 0x85
  }

  /** True for null, for the empty string, and for a string of white space only. */
  predicate IsNullOrWhiteSpace(s: Option<string>)
    ensures IsNullOrWhiteSpace(s) <==> s.None? || forall c :: c in s.value ==> c in WhiteSpaceChars
  {
    match s
    case None => true
    case Some(t) => forall i :: 0 <= i < |t| ==> IsWhiteSpace(t[i])
  }

  /** One character that is not white space is enough to make a string count as present. */
  lemma PresentWhenSomeCharIsNotSpace(t: string, i: nat)
    requires i < |t| && !IsWhiteSpace(t[i])
    ensures !IsNullOrWhiteSpace(Some(t))
  {
  }

  /** Null, "" and strings of blanks, tabs and line breaks all count as missing. */
  lemma MissingValues(t: string)
    requires forall i :: 0 <= i < |t| ==> t[i] in {' ', '\t', '\n', '\r', '\U{00A0}'}
    ensures IsNullOrWhiteSpace(None) && IsNullOrWhiteSpace(Some("")) && IsNullOrWhiteSpace(Some(t))
  {
  }
}
