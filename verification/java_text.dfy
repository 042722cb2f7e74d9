/** The pieces of java.lang.String and java.lang.Character that the core relies on. */
module JavaText {
  import opened Wrappers

  /**
   * Character.isWhitespace: the Unicode space, line and paragraph separators
   * except the three non-breaking spaces (U+00A0, U+2007, U+202F), plus the
   * controls U+0009..U+000D and U+001C..U+001F.
   */
  predicate IsWhitespace(c: char) {
    var n := c as int;
    (0x09 <= n <= 0x0D) || (0x1C <= n <= 0x20) || n == 0x1680
    || (0x2000 <= n <= 0x2006) || (0x2008 <= n <= 0x200A)
    || n == 0x2028 || n == 0x2029 || n == 0x205F || n == 0x3000
  }

  /** String.isBlank: empty, or only whitespace code points. */
  predicate IsBlank(s: string) {
    forall i :: 0 <= i < |s| ==> IsWhitespace(s[i])
  }

  /** The guard `s == null || s.isBlank()` used throughout the core. */
  predicate NullOrBlank(s: Option<string>) {
    s.None? || IsBlank(s.value)
  }

  /** How a possibly-null String argument is written into a message: null prints as "null". */
  function NullText(s: Option<string>): string {
    if s.None? then "null" else s.value
  }

  /**
   * The scan String.isBlank performs: the index of the first character that
   * is not whitespace, or the length when there is none.
   */
  function IndexOfNonWhitespace(s: string): (r: nat)
    ensures r <= |s|
    ensures forall i :: 0 <= i < r ==> IsWhitespace(s[i])
    ensures r < |s| ==> !IsWhitespace(s[r])
    decreases |s|
  {
    if |s| == 0 || !IsWhitespace(s[0]) then 0 else 1 + IndexOfNonWhitespace(s[1..])
  }

  /** isBlank holds exactly when the scan runs to the end of the string. */
  lemma BlankIffScanReachesEnd(s: string)
    ensures IsBlank(s) <==> IndexOfNonWhitespace(s) == |s|
  {
  }

  /**
   * Which characters count: ordinary spaces, tabs, line breaks and the wide
   * Unicode spaces do; the non-breaking spaces and visible characters do not.
   */
  lemma WhitespaceExamples()
    ensures IsWhitespace(' ') && IsWhitespace('\t') && IsWhitespace('\n') && IsWhitespace('\r')
    ensures IsWhitespace('\U{2003}') && IsWhitespace('\U{3000}')
    ensures !IsWhitespace('\U{00A0}') && !IsWhitespace('\U{2007}') && !IsWhitespace('\U{202F}')
    ensures !IsWhitespace('a') && !IsWhitespace('-')
  {
  }

  /** Blank strings: the empty one and whitespace runs; a non-breaking space is not blank. */
  lemma BlankExamples()
    ensures IsBlank("") && IsBlank(" \t\n")
    ensures !IsBlank(" a ") && !IsBlank("\U{00A0}")
  {
    assert !IsWhitespace(" a "[1]);
    assert !IsWhitespace("\U{00A0}"[0]);
  }
}
